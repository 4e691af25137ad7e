/** Seeds of the worker generators. Unsigned 64-bit words are numbers below 2^64. */
module Seeds {
  import opened Oracle

  const FACTOR: nat := 2654435761

  /** The inverse of the factor modulo 2^64, which exists because the factor is odd. */
  const INVERSE: nat := 14962265741255716689
  const CARRY: nat := 2153028908

  predicate Odd(x: nat) { x % 2 == 1 }

  /** Bitwise exclusive or. */
  function Xor(x: nat, y: nat): nat {
    if x == 0 && y == 0 then 0
    else (if Odd(x) != Odd(y) then 1 else 0) + 2 * Xor(x / 2, y / 2)
  }

  /** The part of a seed that separates the workers of one pod: the product wraps around. */
  function WorkerTerm(worker: nat): (term: nat)
    ensures term < TWO_64
  {
    (worker + 1) * FACTOR % TWO_64
  }

  function SeedFor(base: nat, host: nat, worker: nat): nat {
    Xor(Xor(base, host), WorkerTerm(worker))
  }

  /** The two words a worker's stream starts from: the seed and its complement. */
  function StreamState(seed: nat): (nat, int) {
    (seed, TWO_64 - 1 - seed)
  }

  /** A multiple of the factor that is a multiple of 2^64 is one already without the factor. */
  lemma {:induction false} FactorInvertible(d: int, e: int)
    requires d * FACTOR == e * TWO_64
    ensures d == TWO_64 * (e * INVERSE - d * CARRY)
  {
    assert d * FACTOR * INVERSE == e * TWO_64 * INVERSE;
    assert FACTOR * INVERSE == CARRY * TWO_64 + 1;
  }

  lemma {:induction false} WorkerTermInjective(v: nat, w: nat)
    requires v < TWO_64 && w < TWO_64
    requires WorkerTerm(v) == WorkerTerm(w)
    ensures v == w
  {
    var p, q := (v + 1) * FACTOR / TWO_64, (w + 1) * FACTOR / TWO_64;
    assert (v - w) * FACTOR == (p - q) * TWO_64;
    FactorInvertible(v - w, p - q);
  }

  lemma {:induction false} XorBits(x: nat, y: nat)
    ensures Odd(Xor(x, y)) <==> Odd(x) != Odd(y)
    ensures Xor(x, y) / 2 == Xor(x / 2, y / 2)
  {
  }

  lemma {:induction false} XorZero(x: nat, y: nat)
    ensures Xor(x, y) == 0 <==> x == y
  {
    if x == 0 && y == 0 {
    } else {
      XorZero(x / 2, y / 2);
      XorBits(x, y);
    }
  }

  lemma {:induction false} XorMixes(base: nat, h1: nat, t1: nat, h2: nat, t2: nat)
    ensures Xor(Xor(Xor(base, h1), t1), Xor(Xor(base, h2), t2)) == Xor(Xor(h1, h2), Xor(t1, t2))
    decreases base + h1 + t1 + h2 + t2
  {
    if base + h1 + t1 + h2 + t2 > 0 {
      XorMixes(base / 2, h1 / 2, t1 / 2, h2 / 2, t2 / 2);
      XorBits(base, h1);
      XorBits(Xor(base, h1), t1);
      XorBits(base, h2);
      XorBits(Xor(base, h2), t2);
      XorBits(Xor(Xor(base, h1), t1), Xor(Xor(base, h2), t2));
      XorBits(h1, h2);
      XorBits(t1, t2);
      XorBits(Xor(h1, h2), Xor(t1, t2));
      hide Xor;
      SameBits(Xor(Xor(Xor(base, h1), t1), Xor(Xor(base, h2), t2)), Xor(Xor(h1, h2), Xor(t1, t2)));
    }
  }

  lemma {:induction false} SameBits(x: nat, y: nat)
    requires Odd(x) == Odd(y) && x / 2 == y / 2
    ensures x == y
  {
  }

  /** Two workers, on whatever pods, get the same seed exactly when the exclusive or of their hosts is
      that of their worker terms. */
  lemma {:induction false} SeedsCollideIff(base: nat, host1: nat, worker1: nat, host2: nat, worker2: nat)
    ensures SeedFor(base, host1, worker1) == SeedFor(base, host2, worker2)
       <==> Xor(host1, host2) == Xor(WorkerTerm(worker1), WorkerTerm(worker2))
  {
    hide WorkerTerm, Xor;
    var term1, term2 := WorkerTerm(worker1), WorkerTerm(worker2);
    XorMixes(base, host1, term1, host2, term2);
    XorZero(SeedFor(base, host1, worker1), SeedFor(base, host2, worker2));
    XorZero(Xor(host1, host2), Xor(term1, term2));
  }

  /** On one pod different workers have different seeds, and so have equally numbered workers of
      different pods; the streams then start from different states. */
  lemma {:induction false} SeedsSeparate(base: nat, host1: nat, worker1: nat, host2: nat, worker2: nat)
    requires worker1 < TWO_64 && worker2 < TWO_64
    requires (host1 == host2) != (worker1 == worker2)
    ensures SeedFor(base, host1, worker1) != SeedFor(base, host2, worker2)
    ensures StreamState(SeedFor(base, host1, worker1)) != StreamState(SeedFor(base, host2, worker2))
  {
    hide WorkerTerm, Xor;
    SeedsCollideIff(base, host1, worker1, host2, worker2);
    XorZero(host1, host2);
    XorZero(WorkerTerm(worker1), WorkerTerm(worker2));
    if WorkerTerm(worker1) == WorkerTerm(worker2) {
      WorkerTermInjective(worker1, worker2);
    }
  }

  function Pow2(k: nat): (r: nat)
    ensures r >= 1
  {
    if k == 0 then 1 else 2 * Pow2(k - 1)
  }

  lemma {:induction false} Pow2Sum(j: nat, k: nat)
    ensures Pow2(j + k) == Pow2(j) * Pow2(k)
  {
    if k == 0 {
    } else {
      Pow2Sum(j, k - 1);
      assert Pow2(j) * (2 * Pow2(k - 1)) == 2 * (Pow2(j) * Pow2(k - 1));
    }
  }

  lemma {:induction false} Pow2Doubled(k: nat)
    ensures Pow2(2 * k) == Pow2(k) * Pow2(k)
  {
    Pow2Sum(k, k);
  }

  lemma {:induction false} NibbleSize()
    ensures Pow2(4) == 16
  {
  }

  lemma {:induction false} WordSize()
    ensures Pow2(64) == TWO_64
  {
    hide Pow2;
    NibbleSize();
    Pow2Doubled(4);
    Pow2Doubled(8);
    Pow2Doubled(16);
    Pow2Doubled(32);
  }

  lemma {:induction false} XorBelow(x: nat, y: nat, k: nat)
    requires x < Pow2(k) && y < Pow2(k)
    ensures Xor(x, y) < Pow2(k)
  {
    if k == 0 {
      assert x == 0 && y == 0;
    } else {
      XorBelow(x / 2, y / 2, k - 1);
      XorBits(x, y);
    }
  }

  lemma {:induction false} XorOfWords(x: nat, y: nat)
    requires x < TWO_64 && y < TWO_64
    ensures Xor(x, y) < TWO_64
  {
    hide Pow2, Xor;
    WordSize();
    XorBelow(x, y, 64);
  }

  /** Every seed is a 64-bit word. */
  lemma {:induction false} SeedIsWord(base: nat, host: nat, worker: nat)
    requires base < TWO_64 && host < TWO_64
    ensures SeedFor(base, host, worker) < TWO_64
  {
    hide Xor;
    XorOfWords(base, host);
    XorOfWords(Xor(base, host), WorkerTerm(worker));
  }

  /** Seeds are not unique over all pairs of pods and workers: for any two workers there are hosts on
      which they collide. */
  lemma {:induction false} SeedsCanCollide(base: nat, worker1: nat, worker2: nat)
    requires worker1 < TWO_64 && worker2 < TWO_64 && worker1 != worker2
    ensures var host := Xor(WorkerTerm(worker1), WorkerTerm(worker2));
            0 < host < TWO_64 && SeedFor(base, host, worker1) == SeedFor(base, 0, worker2)
  {
    hide WorkerTerm;
    var host := Xor(WorkerTerm(worker1), WorkerTerm(worker2));
    XorWithZero(host);
    XorOfWords(WorkerTerm(worker1), WorkerTerm(worker2));
    hide Xor;
    SeedsCollideIff(base, host, worker1, 0, worker2);
    XorZero(WorkerTerm(worker1), WorkerTerm(worker2));
    if host == 0 {
      WorkerTermInjective(worker1, worker2);
    }
  }

  lemma {:induction false} XorWithZero(x: nat)
    ensures Xor(x, 0) == x
  {
    if x == 0 {
    } else {
      XorWithZero(x / 2);
    }
  }

  lemma {:induction false} XorCancels(x: nat, y: nat)
    ensures Xor(Xor(x, y), y) == x
    decreases x + y
  {
    if x == 0 && y == 0 {
    } else {
      XorCancels(x / 2, y / 2);
      XorBits(x, y);
      XorBits(Xor(x, y), y);
      hide Xor;
      SameBits(Xor(Xor(x, y), y), x);
    }
  }

  /** A seed without its worker term is the base seed with the host mixed in, and without the host too it is
      the base seed. */
  lemma {:induction false} SeedRead(base: nat, host: nat, worker: nat)
    ensures Xor(SeedFor(base, host, worker), WorkerTerm(worker)) == Xor(base, host)
    ensures Xor(Xor(SeedFor(base, host, worker), WorkerTerm(worker)), host) == base
  {
    hide Xor, WorkerTerm;
    XorCancels(Xor(base, host), WorkerTerm(worker));
    XorCancels(base, host);
  }

  /** On one pod and for one worker different base seeds give different seeds. */
  lemma {:induction false} BasesSeparate(base1: nat, base2: nat, host: nat, worker: nat)
    requires SeedFor(base1, host, worker) == SeedFor(base2, host, worker)
    ensures base1 == base2
  {
    hide Xor, WorkerTerm, SeedFor;
    SeedRead(base1, host, worker);
    SeedRead(base2, host, worker);
  }

  lemma {:induction false} XorFromZero(x: nat)
    ensures Xor(0, x) == x
  {
    XorComm(0, x);
    XorWithZero(x);
  }

  lemma {:induction false} XorFromOne(x: nat)
    requires Odd(x)
    ensures Xor(1, x) == x - 1
  {
    XorFromZero(x / 2);
  }

  lemma {:induction false} SeedExamples()
    ensures WorkerTerm(0) == 2654435761 && WorkerTerm(1) == 5308871522
    ensures SeedFor(0, 0, 0) == 2654435761 && SeedFor(1, 0, 0) == 2654435760
  {
    hide Xor;
    XorWithZero(0);
    XorWithZero(1);
    XorFromZero(2654435761);
    XorFromOne(2654435761);
  }

  lemma {:induction false} XorComm(x: nat, y: nat)
    ensures Xor(x, y) == Xor(y, x)
  {
    if x == 0 && y == 0 {
    } else {
      XorComm(x / 2, y / 2);
    }
  }

  lemma {:induction false} XorComplement(x: nat, k: nat)
    requires x < Pow2(k)
    ensures Xor(x, Pow2(k) - 1 - x) == Pow2(k) - 1
  {
    if k == 0 {
    } else {
      var y := Pow2(k) - 1 - x;
      assert y / 2 == Pow2(k - 1) - 1 - x / 2 && Odd(x) != Odd(y);
      XorComplement(x / 2, k - 1);
    }
  }

  /** The two words of a stream's state complement one another bit by bit. */
  lemma {:induction false} StreamComplement(seed: nat)
    requires seed < TWO_64
    ensures StreamState(seed).0 == seed && 0 <= StreamState(seed).1 && Xor(seed, StreamState(seed).1) == TWO_64 - 1
  {
    hide Xor, Pow2;
    WordSize();
    XorComplement(seed, 64);
  }
}
