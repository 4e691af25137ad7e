/** Shard rotation: which connection the n-th pick of a sink goes to, and how even that is. */
module Rotation {
  import opened Oracle

  /** Go's remainder, which takes the sign of the dividend. */
  function GoRem(a: int, k: nat): int
    requires k > 0
  {
    if a >= 0 then a % k else -((-a) % k)
  }

  /** The counter a sink starts from. */
  function InitialOffset(replica: int, k: nat): (offset: nat)
    requires 0 < k < TWO_63
    ensures offset < TWO_64
    ensures replica >= 0 ==> offset == replica % k
    ensures replica < 0 ==> offset == if (-replica) % k == 0 then 0 else TWO_64 - (-replica) % k
  {
    var r := GoRem(replica, k);
    if r >= 0 then r else r + TWO_64
  }

  /** The shards that `m` picks in a row visit when the counter stands at `start`. */
  function Picks(start: nat, k: nat, m: nat): (r: seq<nat>)
    requires k > 0
    ensures |r| == m
  {
    seq(m, j requires 0 <= j < m => (start + 1 + j) % k)
  }

  // ---- counting ----

  /** How many of the numbers s, s+1, ..., s+m-1 leave remainder `a`. */
  function Hits(s: nat, m: nat, k: nat, a: nat): nat
    requires k > 0
  {
    if m == 0 then 0 else Hits(s, m - 1, k, a) + if (s + m - 1) % k == a then 1 else 0
  }

  function Count(xs: seq<nat>, a: nat): nat {
    if xs == [] then 0 else Count(xs[..|xs| - 1], a) + if xs[|xs| - 1] == a then 1 else 0
  }

  lemma {:induction false} CountPicks(start: nat, k: nat, m: nat, a: nat)
    requires k > 0
    ensures Count(Picks(start, k, m), a) == Hits(start + 1, m, k, a)
  {
    if m == 0 {
    } else {
      assert Picks(start, k, m)[..m - 1] == Picks(start, k, m - 1);
      CountPicks(start, k, m - 1, a);
    }
  }

  lemma {:induction false} HitsSplit(s: nat, m: nat, n: nat, k: nat, a: nat)
    requires k > 0
    ensures Hits(s, m + n, k, a) == Hits(s, m, k, a) + Hits(s + m, n, k, a)
  {
    if n == 0 {
    } else {
      HitsSplit(s, m, n - 1, k, a);
      assert s + (m + n) - 1 == s + m + n - 1;
    }
  }

  // ---- remainders ----

  lemma {:induction false} Multiple(d: int, k: nat)
    ensures d >= 1 ==> d * k >= k
    ensures d <= -1 ==> d * k + k <= 0
  {
    if d >= 1 {
      assert d * k == (d - 1) * k + k;
    } else if d <= -1 {
      assert d * k == (d + 1) * k - k;
    }
  }

  lemma {:induction false} DivisionUnique(k: nat, q: int, r: nat, q': int, r': nat)
    requires q * k + r == q' * k + r' && r < k && r' < k
    ensures q == q' && r == r'
  {
    assert (q - q') * k == r' - r;
    Multiple(q - q', k);
  }

  lemma {:induction false} RemainderShift(s: nat, k: nat)
    requires 0 < k
    ensures (s + k) % k == s % k && (s + k) / k == s / k + 1
  {
    assert s + k == (s / k + 1) * k + s % k;
    assert s + k == (s + k) / k * k + (s + k) % k;
    DivisionUnique(k, s / k + 1, s % k, (s + k) / k, (s + k) % k);
  }

  lemma {:induction false} SmallRemainder(m: nat, k: nat)
    requires m < k
    ensures m % k == m && m / k == 0
  {
    assert m == m / k * k + m % k;
    assert m == 0 * k + m;
    DivisionUnique(k, 0, m, m / k, m % k);
  }

  lemma {:induction false} HitsShift(s: nat, m: nat, k: nat, a: nat)
    requires 0 < k
    ensures Hits(s + k, m, k, a) == Hits(s, m, k, a)
  {
    if m == 0 {
    } else {
      HitsShift(s, m - 1, k, a);
      RemainderShift(s + m - 1, k);
      assert s + k + m - 1 == s + m - 1 + k;
    }
  }

  // ---- one sink ----

  lemma {:induction false} HitsFromZero(m: nat, k: nat, a: nat)
    requires 0 < k && m <= k && a < k
    ensures Hits(0, m, k, a) == if a < m then 1 else 0
  {
    if m == 0 {
    } else {
      HitsFromZero(m - 1, k, a);
      SmallRemainder(m - 1, k);
    }
  }

  /** Every `k` numbers in a row hit every remainder exactly once. */
  lemma {:induction false} HitsCycle(s: nat, k: nat, a: nat)
    requires 0 < k && a < k
    ensures Hits(s, k, k, a) == 1
  {
    if s == 0 {
      HitsFromZero(k, k, a);
    } else {
      HitsCycle(s - 1, k, a);
      HitsSplit(s - 1, 1, k - 1, k, a);
      RemainderShift(s - 1, k);
      FirstHit(s - 1, k, a);
    }
  }

  lemma {:induction false} FirstHit(s: nat, k: nat, a: nat)
    requires 0 < k
    ensures Hits(s, 1, k, a) == if s % k == a then 1 else 0
  {
    assert Hits(s, 0, k, a) == 0;
  }

  lemma {:induction false} HitsWhole(s: nat, m: nat, k: nat, a: nat)
    requires 0 < k && a < k
    ensures Hits(s, m, k, a) == m / k + Hits(s, m % k, k, a)
    ensures Hits(s, m % k, k, a) <= 1
  {
    hide Hits;
    if m < k {
      SmallRemainder(m, k);
      HitsSplit(s, m, k - m, k, a);
      HitsCycle(s, k, a);
    } else {
      HitsWhole(s, m - k, k, a);
      HitsSplit(s, k, m - k, k, a);
      HitsCycle(s, k, a);
      HitsShift(s, m - k, k, a);
      RemainderShift(m - k, k);
    }
  }

  /** Over any number of picks, by whichever workers and retries made them, no shard is ahead of
      another by more than one. */
  lemma {:induction false} Fair(start: nat, k: nat, m: nat, a: nat, b: nat)
    requires 0 < k && a < k && b < k
    ensures Count(Picks(start, k, m), a) <= Count(Picks(start, k, m), b) + 1
    ensures m / k <= Count(Picks(start, k, m), a) <= m / k + 1
  {
    CountPicks(start, k, m, a);
    CountPicks(start, k, m, b);
    HitsWhole(start + 1, m, k, a);
    HitsWhole(start + 1, m, k, b);
  }

  // ---- many replicas ----

  /** How many of `m` picks by each of the replicas 0, ..., n-1 went to shard `a`. */
  function Total(n: nat, m: nat, k: nat, a: nat): nat
    requires 0 < k < TWO_63
  {
    if n == 0 then 0
    else Total(n - 1, m, k, a) + Count(Picks(InitialOffset(n - 1, k), k, m), a)
  }

  /** The same count as a sum over rows of consecutive numbers. */
  function Grid(n: nat, m: nat, k: nat, a: nat): nat
    requires k > 0
  {
    if n == 0 then 0 else Grid(n - 1, m, k, a) + Hits(n, m, k, a)
  }

  lemma {:induction false} HitsOfRemainder(s: nat, m: nat, k: nat, a: nat)
    requires 0 < k
    ensures Hits(s % k + 1, m, k, a) == Hits(s + 1, m, k, a)
  {
    if s < k {
      SmallRemainder(s, k);
    } else {
      HitsOfRemainder(s - k, m, k, a);
      RemainderShift(s - k, k);
      HitsShift(s - k + 1, m, k, a);
      assert s - k + 1 + k == s + 1;
    }
  }

  lemma {:induction false} TotalIsGrid(n: nat, m: nat, k: nat, a: nat)
    requires 0 < k < TWO_63
    ensures Total(n, m, k, a) == Grid(n, m, k, a)
  {
    if n == 0 {
    } else {
      TotalIsGrid(n - 1, m, k, a);
      CountPicks(InitialOffset(n - 1, k), k, m, a);
      HitsOfRemainder(n - 1, m, k, a);
    }
  }

  lemma {:induction false} GridColumn(n: nat, m: nat, k: nat, a: nat)
    requires k > 0
    ensures Grid(n, m + 1, k, a) == Grid(n, m, k, a) + Hits(m + 1, n, k, a)
  {
    if n == 0 {
    } else {
      GridColumn(n - 1, m, k, a);
      assert n + (m + 1) - 1 == m + 1 + n - 1;
    }
  }

  /** Counting by rows and by columns gives the same. */
  lemma {:induction false} GridTransposed(n: nat, m: nat, k: nat, a: nat)
    requires k > 0
    ensures Grid(n, m, k, a) == Grid(m, n, k, a)
  {
    if m == 0 {
      EmptyRows(n, k, a);
    } else {
      GridTransposed(n, m - 1, k, a);
      GridColumn(n, m - 1, k, a);
    }
  }

  lemma {:induction false} EmptyRows(n: nat, k: nat, a: nat)
    requires k > 0
    ensures Grid(n, 0, k, a) == 0
  {
    if n == 0 {
    } else {
      EmptyRows(n - 1, k, a);
    }
  }

  lemma {:induction false} GridWhole(n: nat, m: nat, k: nat, a: nat)
    requires 0 < k && a < k
    ensures Grid(n, m, k, a) == n * (m / k) + Grid(n, m % k, k, a)
    ensures Grid(n, m % k, k, a) <= n
  {
    if n == 0 {
    } else {
      GridWhole(n - 1, m, k, a);
      HitsWhole(n, m, k, a);
      assert n * (m / k) == (n - 1) * (m / k) + m / k;
    }
  }

  lemma {:induction false} GridSpread(n: nat, m: nat, k: nat, a: nat, b: nat)
    requires 0 < k && a < k && b < k
    ensures Grid(n, m, k, a) <= Grid(n, m, k, b) + n % k
  {
    forall c | c == a || c == b
      ensures Grid(n, m, k, c) == m * (n / k) + (n % k) * (m / k) + Grid(n % k, m % k, k, c)
      ensures Grid(n % k, m % k, k, c) <= n % k
    {
      GridTransposed(n, m, k, c);
      GridWhole(m, n, k, c);
      GridTransposed(m, n % k, k, c);
      GridWhole(n % k, m, k, c);
    }
  }

  /** With `n` replicas of `m` picks each, the totals of two shards differ by no more than the replicas
      beyond whole rounds, nor by more than the picks beyond whole rounds. */
  lemma {:induction false} ReplicasFair(n: nat, m: nat, k: nat, a: nat, b: nat)
    requires 0 < k < TWO_63 && a < k && b < k
    ensures Total(n, m, k, a) <= Total(n, m, k, b) + n % k
    ensures Total(n, m, k, a) <= Total(n, m, k, b) + m % k
  {
    TotalIsGrid(n, m, k, a);
    TotalIsGrid(n, m, k, b);
    GridSpread(n, m, k, a, b);
    GridTransposed(n, m, k, a);
    GridTransposed(n, m, k, b);
    GridSpread(m, n, k, a, b);
  }

  // ---- beyond the wrap of the counter ----

  /** The shards that `m` picks in a row visit, with a counter of 64 bits. */
  function WrappedPicks(start: nat, k: nat, m: nat): (r: seq<nat>)
    requires k > 0
    ensures |r| == m
  {
    seq(m, j requires 0 <= j < m => (start + 1 + j) % TWO_64 % k)
  }

  /** One fetch-and-add continues the picks. */
  lemma {:induction false} NextPick(start: nat, k: nat, m: nat)
    requires k > 0
    ensures ((start + m) % TWO_64 + 1) % TWO_64 == (start + (m + 1)) % TWO_64
    ensures WrappedPicks(start, k, m + 1) == WrappedPicks(start, k, m) + [(start + (m + 1)) % TWO_64 % k]
  {
    assert start + 1 + m == start + (m + 1);
  }

  /** How many picks the counter allows before it wraps around. */
  function BeforeWrap(start: nat): int { TWO_64 - 1 - start }

  function WrappedHits(start: nat, k: nat, m: nat, a: nat): nat
    requires k > 0 && start < TWO_64
  {
    if m <= BeforeWrap(start) then Hits(start + 1, m, k, a)
    else Hits(start + 1, BeforeWrap(start), k, a) + Hits(0, m - BeforeWrap(start), k, a)
  }

  lemma {:induction false} NextWrapped(start: nat, k: nat, m: nat, a: nat)
    requires k > 0 && start < TWO_64 && 0 < m && start + m < 2 * TWO_64
    ensures WrappedHits(start, k, m, a)
         == WrappedHits(start, k, m - 1, a) + if (start + m) % TWO_64 % k == a then 1 else 0
  {
    var n := BeforeWrap(start);
    if m > n {
      assert (start + m) % TWO_64 == start + m - TWO_64 == m - n - 1;
      assert Hits(0, 0, k, a) == 0;
    } else {
      assert (start + m) % TWO_64 == start + m;
    }
  }

  lemma {:induction false} CountWrapped(start: nat, k: nat, m: nat, a: nat)
    requires k > 0 && start < TWO_64 && start + m < 2 * TWO_64
    ensures Count(WrappedPicks(start, k, m), a) == WrappedHits(start, k, m, a)
  {
    if m == 0 {
    } else {
      hide WrappedHits, Hits;
      CountWrapped(start, k, m - 1, a);
      NextWrapped(start, k, m, a);
      assert WrappedPicks(start, k, m)[..m - 1] == WrappedPicks(start, k, m - 1);
      assert WrappedPicks(start, k, m)[m - 1] == (start + m) % TWO_64 % k;
    }
  }

  lemma {:induction false} NextRemainder(x: nat, k: nat)
    requires 0 < k
    ensures (x + 1) % k == if x % k + 1 < k then x % k + 1 else 0
  {
    var q, r := x / k, x % k;
    assert x + 1 == (x + 1) / k * k + (x + 1) % k;
    if r + 1 < k {
      assert x + 1 == q * k + (r + 1);
      DivisionUnique(k, q, r + 1, (x + 1) / k, (x + 1) % k);
    } else {
      assert x + 1 == (q + 1) * k + 0;
      DivisionUnique(k, q + 1, 0, (x + 1) / k, (x + 1) % k);
    }
  }

  /** One number further, every remainder is one larger. */
  lemma {:induction false} HitsNext(s: nat, m: nat, k: nat, a: nat)
    requires a + 1 < k
    ensures Hits(s + 1, m, k, a + 1) == Hits(s, m, k, a)
  {
    if m == 0 {
    } else {
      HitsNext(s, m - 1, k, a);
      NextRemainder(s + m - 1, k);
      assert s + 1 + m - 1 == s + m - 1 + 1;
    }
  }

  lemma {:induction false} HitsSlide(s: nat, m: nat, k: nat, a: nat)
    requires k > 0
    ensures Hits(s + 1, m, k, a) + (if s % k == a then 1 else 0) == Hits(s, m, k, a) + if (s + m) % k == a then 1 else 0
  {
    HitsSplit(s, 1, m, k, a);
    HitsSplit(s, m, 1, k, a);
    FirstHit(s, k, a);
    FirstHit(s + m, k, a);
    assert 1 + m == m + 1;
  }

  lemma {:induction false} SameRemainder(s: nat, d: nat, k: nat)
    requires 0 < k && (s + d) % k == s % k
    ensures d % k == 0
  {
    assert s + d == (s + d) / k * k + s % k;
    assert s == s / k * k + s % k;
    assert d == ((s + d) / k - s / k) * k + 0;
    assert d == d / k * k + d % k;
    DivisionUnique(k, (s + d) / k - s / k, 0, d / k, d % k);
  }

  /** The last numbers before the wrap favour the shard below 2^64 % k over the one at it, unless they
      make whole rounds. */
  lemma {:induction false} TailFavours(start: nat, k: nat)
    requires start < TWO_64 && 0 < k && TWO_64 % k != 0 && BeforeWrap(start) % k != 0
    ensures var w := TWO_64 % k; var n := BeforeWrap(start);
            Hits(start + 1, n, k, w - 1) == Hits(start + 1, n, k, w) + 1
  {
    var w := TWO_64 % k;
    var n := BeforeWrap(start);
    HitsNext(start + 1, n, k, w - 1);
    HitsSlide(start + 1, n, k, w);
    assert start + 1 + n == TWO_64;
    if (start + 1) % k == w {
      SameRemainder(start + 1, n, k);
    }
  }

  /** Whatever the counter starts from, until it wraps a second time no shard is ahead by more than two. */
  lemma {:induction false} WrapSpread(start: nat, k: nat, m: nat, a: nat, b: nat)
    requires start < TWO_64 && start + m < 2 * TWO_64 && a < k && b < k
    ensures Count(WrappedPicks(start, k, m), a) <= Count(WrappedPicks(start, k, m), b) + 2
  {
    hide Hits, WrappedPicks, Count;
    forall c | c == a || c == b ensures Count(WrappedPicks(start, k, m), c) == WrappedHits(start, k, m, c) {
      CountWrapped(start, k, m, c);
    }
    HitsEven(start + 1, if m <= BeforeWrap(start) then m else BeforeWrap(start), k, a, b);
    if m > BeforeWrap(start) {
      HitsEven(0, m - BeforeWrap(start), k, a, b);
    }
  }

  lemma {:induction false} HitsEven(s: nat, m: nat, k: nat, a: nat, b: nat)
    requires a < k && b < k
    ensures Hits(s, m, k, a) <= Hits(s, m, k, b) + 1
    ensures m % k == 0 ==> Hits(s, m, k, a) == Hits(s, m, k, b)
  {
    HitsWhole(s, m, k, a);
    HitsWhole(s, m, k, b);
  }

  /** No shard is ahead of another by more than one, at any time before a second wrap. */
  ghost predicate FairThroughWrap(start: nat, k: nat)
    requires k > 0
  {
    forall m: nat, a: nat, b: nat :: start + m < 2 * TWO_64 && a < k && b < k ==>
      Count(WrappedPicks(start, k, m), a) <= Count(WrappedPicks(start, k, m), b) + 1
  }

  lemma {:induction false} WholeRoundsFair(start: nat, k: nat, m: nat, a: nat, b: nat)
    requires start < TWO_64 && start + m < 2 * TWO_64 && a < k && b < k
    requires m <= BeforeWrap(start) || BeforeWrap(start) % k == 0
    ensures Count(WrappedPicks(start, k, m), a) <= Count(WrappedPicks(start, k, m), b) + 1
  {
    hide Hits, WrappedPicks, Count;
    CountWrapped(start, k, m, a);
    CountWrapped(start, k, m, b);
    HitsEven(start + 1, if m <= BeforeWrap(start) then m else BeforeWrap(start), k, a, b);
    if m > BeforeWrap(start) {
      HitsEven(0, m - BeforeWrap(start), k, a, b);
    }
  }

  lemma {:induction false} DividedWrap(x: nat, k: nat)
    requires 0 < k && TWO_64 % k == 0
    ensures x % TWO_64 % k == x % k
  {
    var c, q, r := TWO_64 / k, x / TWO_64, x % TWO_64;
    assert TWO_64 == c * k;
    assert q * TWO_64 == q * c * k;
    assert x == q * c * k + r;
    assert r == r / k * k + r % k;
    assert x == (q * c + r / k) * k + r % k;
    assert x == x / k * k + x % k;
    DivisionUnique(k, q * c + r / k, r % k, x / k, x % k);
  }

  /** If the number of shards divides 2^64, the wrap goes unnoticed. */
  lemma {:induction false} DividedPicks(start: nat, k: nat, m: nat)
    requires 0 < k && TWO_64 % k == 0
    ensures WrappedPicks(start, k, m) == Picks(start, k, m)
  {
    forall j | 0 <= j < m ensures WrappedPicks(start, k, m)[j] == Picks(start, k, m)[j] {
      DividedWrap(start + 1 + j, k);
    }
  }

  /** The rotation is fair through the wrap exactly when the picks before it make whole rounds or the
      number of shards divides 2^64. */
  lemma {:induction false} FairThroughWrapIff(start: nat, k: nat)
    requires start < TWO_64 && 0 < k
    ensures FairThroughWrap(start, k) <==> BeforeWrap(start) % k == 0 || TWO_64 % k == 0
  {
    hide Hits, WrappedPicks, Count;
    if BeforeWrap(start) % k == 0 || TWO_64 % k == 0 {
      forall m: nat, a: nat, b: nat | start + m < 2 * TWO_64 && a < k && b < k
        ensures Count(WrappedPicks(start, k, m), a) <= Count(WrappedPicks(start, k, m), b) + 1
      {
        if BeforeWrap(start) % k == 0 {
          WholeRoundsFair(start, k, m, a, b);
        } else {
          DividedPicks(start, k, m);
          Fair(start, k, m, a, b);
        }
      }
    } else {
      Unfair(start, k);
    }
  }

  lemma {:induction false} Unfair(start: nat, k: nat)
    requires start < TWO_64 && 0 < k && BeforeWrap(start) % k != 0 && TWO_64 % k != 0
    ensures var w := TWO_64 % k; var m := BeforeWrap(start) + w;
            Count(WrappedPicks(start, k, m), w - 1) == Count(WrappedPicks(start, k, m), w) + 2
    ensures !FairThroughWrap(start, k)
  {
    var w := TWO_64 % k;
    var m := BeforeWrap(start) + w;
    assert 0 < w < k && w <= TWO_64;
    TailFavours(start, k);
    CountWrapped(start, k, m, w - 1);
    CountWrapped(start, k, m, w);
    HitsFromZero(w, k, w - 1);
    HitsFromZero(w, k, w);
    hide Hits, WrappedPicks, Count;
  }

  /** Fairness from every start and over any number of picks, whatever the wraps: exactly when the number
      of shards divides 2^64. */
  lemma {:induction false} AlwaysFairIff(k: nat)
    requires 0 < k
    ensures (forall start: nat, m: nat, a: nat, b: nat :: start < TWO_64 && a < k && b < k ==>
              Count(WrappedPicks(start, k, m), a) <= Count(WrappedPicks(start, k, m), b) + 1)
       <==> TWO_64 % k == 0
  {
    hide Hits, WrappedPicks, Count;
    if TWO_64 % k == 0 {
      forall start: nat, m: nat, a: nat, b: nat | start < TWO_64 && a < k && b < k
        ensures Count(WrappedPicks(start, k, m), a) <= Count(WrappedPicks(start, k, m), b) + 1
      {
        DividedPicks(start, k, m);
        Fair(start, k, m, a, b);
      }
    } else {
      SmallRemainder(1, k);
      Unfair(TWO_64 - 2, k);
    }
  }

  /** A negative replica index puts the counter close to its wrap: the rotation is then fair only if the
      index is one less than a multiple of the number of shards, or that number divides 2^64. */
  lemma {:induction false} NegativeReplicaFairIff(replica: int, k: nat)
    requires replica < 0 && 0 < k < TWO_63 && (-replica) % k != 0
    ensures FairThroughWrap(InitialOffset(replica, k), k) <==> (-replica) % k == 1 || TWO_64 % k == 0
  {
    hide FairThroughWrap;
    var r := (-replica) % k;
    SmallRemainder(r - 1, k);
    FairThroughWrapIff(InitialOffset(replica, k), k);
  }

  /** For example, the third of three shards and the second wait while the first is picked twice. */
  lemma {:induction false} NegativeReplicaUnfair()
    ensures WrappedPicks(InitialOffset(-2, 3), 3, 2) == [0, 0]
  {
  }

  // ---- sends that fail ----

  /** The picks whose sends landed. */
  function Kept(xs: seq<nat>, landed: seq<bool>): (r: seq<nat>)
    requires |xs| == |landed|
    ensures |r| <= |xs|
  {
    if xs == [] then [] else
      var n := |xs| - 1;
      Kept(xs[..n], landed[..n]) + if landed[n] then [xs[n]] else []
  }

  function Failed(landed: seq<bool>): (n: nat)
    ensures n <= |landed|
  {
    if landed == [] then 0 else Failed(landed[..|landed| - 1]) + if landed[|landed| - 1] then 0 else 1
  }

  lemma {:induction false} KeptNext(xs: seq<nat>, landed: seq<bool>, x: nat, ok: bool)
    requires |xs| == |landed|
    ensures Kept(xs + [x], landed + [ok]) == Kept(xs, landed) + if ok then [x] else []
    ensures Failed(landed + [ok]) == Failed(landed) + if ok then 0 else 1
  {
    assert (xs + [x])[..|xs|] == xs && (landed + [ok])[..|xs|] == landed;
  }

  lemma {:induction false} CountNext(xs: seq<nat>, x: nat, a: nat)
    ensures Count(xs + [x], a) == Count(xs, a) + if x == a then 1 else 0
  {
    assert (xs + [x])[..|xs|] == xs;
  }

  /** Failed sends take away from a shard's count no more than there are of them. */
  lemma {:induction false} KeptCount(xs: seq<nat>, landed: seq<bool>, a: nat)
    requires |xs| == |landed|
    ensures Count(Kept(xs, landed), a) <= Count(xs, a) <= Count(Kept(xs, landed), a) + Failed(landed)
  {
    if xs == [] {
    } else {
      var n := |xs| - 1;
      KeptCount(xs[..n], landed[..n], a);
      CountNext(Kept(xs[..n], landed[..n]), xs[n], a);
      assert Kept(xs[..n], landed[..n]) + [] == Kept(xs[..n], landed[..n]);
    }
  }

  /** Every send fails whose pick is shard `b`. */
  function Avoiding(xs: seq<nat>, b: nat): (landed: seq<bool>)
    ensures |landed| == |xs|
  {
    seq(|xs|, j requires 0 <= j < |xs| => xs[j] != b)
  }

  lemma {:induction false} AvoidingCounts(xs: seq<nat>, b: nat, c: nat)
    ensures Failed(Avoiding(xs, b)) == Count(xs, b)
    ensures Count(Kept(xs, Avoiding(xs, b)), c) == if c == b then 0 else Count(xs, c)
  {
    if xs == [] {
    } else {
      var n := |xs| - 1;
      AvoidingCounts(xs[..n], b, c);
      assert Avoiding(xs, b)[..n] == Avoiding(xs[..n], b);
      CountNext(Kept(xs[..n], Avoiding(xs[..n], b)), xs[n], c);
      assert Kept(xs[..n], Avoiding(xs[..n], b)) + [] == Kept(xs[..n], Avoiding(xs[..n], b));
    }
  }

  /** One pick more than `f` whole rounds: the first shard is picked once more than the others. */
  lemma {:induction false} RoundsAndOne(start: nat, k: nat, f: nat, c: nat)
    requires 2 <= k && c < k
    ensures Count(Picks(start, k, f * k + 1), c) == f + if c == (start + 1) % k then 1 else 0
  {
    var m := f * k + 1;
    assert m == m / k * k + m % k;
    DivisionUnique(k, f, 1, m / k, m % k);
    CountPicks(start, k, m, c);
    HitsWhole(start + 1, m, k, c);
    FirstHit(start + 1, k, c);
  }

  /** Before the wrap of the counter, and with at most `f` failed sends, no shard has received more than
      `d` batches beyond another one. */
  ghost predicate EvenWithin(start: nat, k: nat, f: nat, d: nat)
    requires k > 0
  {
    forall landed: seq<bool>, a: nat, b: nat ::
      start + |landed| < TWO_64 && Failed(landed) <= f && a < k && b < k ==>
        Count(Kept(Picks(start, k, |landed|), landed), a) <= Count(Kept(Picks(start, k, |landed|), landed), b) + d
  }

  lemma {:induction false} KeptSpread(xs: seq<nat>, landed: seq<bool>, d: nat, a: nat, b: nat)
    requires |xs| == |landed| && Count(xs, a) <= Count(xs, b) + d
    ensures Count(Kept(xs, landed), a) <= Count(Kept(xs, landed), b) + d + Failed(landed)
  {
    KeptCount(xs, landed, a);
    KeptCount(xs, landed, b);
  }

  /** What the shards have received is even within `d` for every pattern of at most `f` failed sends if and
      only if `d` exceeds `f`: within one it is exactly when no send may fail. */
  lemma {:induction false} EvenWithinIff(start: nat, k: nat, f: nat, d: nat)
    requires 2 <= k && start + (f * k + 1) < TWO_64
    ensures EvenWithin(start, k, f, d) <==> d >= f + 1
  {
    hide Count, Kept, Picks, Failed, Avoiding;
    if d >= f + 1 {
      forall landed: seq<bool>, a: nat, b: nat | start + |landed| < TWO_64 && Failed(landed) <= f && a < k && b < k
        ensures Count(Kept(Picks(start, k, |landed|), landed), a)
             <= Count(Kept(Picks(start, k, |landed|), landed), b) + d
      {
        Fair(start, k, |landed|, a, b);
        KeptSpread(Picks(start, k, |landed|), landed, 1, a, b);
      }
    } else {
      var a := (start + 1) % k;
      var b := if a == 0 then 1 else 0;
      StarvedBy(start, k, f, b);
      NotEven(start, k, f, d, Avoiding(Picks(start, k, f * k + 1), b), a, b);
    }
  }

  lemma {:induction false} NotEven(start: nat, k: nat, f: nat, d: nat, landed: seq<bool>, a: nat, b: nat)
    requires start + |landed| < TWO_64 && Failed(landed) <= f && a < k && b < k
    requires Count(Kept(Picks(start, k, |landed|), landed), a) > Count(Kept(Picks(start, k, |landed|), landed), b) + d
    ensures !EvenWithin(start, k, f, d)
  {
    hide Count, Kept, Picks, Failed;
  }

  /** The pattern that needs most: with `f` failures shard `b` gets nothing where the first shard picked
      gets `f + 1` batches. */
  lemma {:induction false} StarvedBy(start: nat, k: nat, f: nat, b: nat)
    requires 2 <= k && b < k && b != (start + 1) % k
    ensures var xs := Picks(start, k, f * k + 1); var landed := Avoiding(xs, b);
            && Failed(landed) == f
            && Count(Kept(xs, landed), b) == 0
            && Count(Kept(xs, landed), (start + 1) % k) == f + 1
  {
    hide Count, Kept, Picks, Failed, Avoiding;
    var xs := Picks(start, k, f * k + 1);
    RoundsAndOne(start, k, f, b);
    RoundsAndOne(start, k, f, (start + 1) % k);
    AvoidingCounts(xs, b, b);
    AvoidingCounts(xs, b, (start + 1) % k);
  }
}
