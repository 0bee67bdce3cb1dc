/** The Mulberry32 generator of app/utils/grid.ts on JavaScript numbers:
    32-bit bitwise operations read the low 32 bits of an integer. */
module Random {
  const INCREMENT: int := 0x6d2b79f5
  const TWO32: int := 0x1_0000_0000

  function Pow2(w: nat): (r: nat)
    ensures r >= 1
  {
    if w == 0 then 1 else 2 * Pow2(w - 1)
  }

  lemma {:induction false} Pow2Add(a: nat, b: nat)
    ensures Pow2(a + b) == Pow2(a) * Pow2(b)
    decreases a
  {
    if a > 0 {
      Pow2Add(a - 1, b);
    }
  }

  lemma Pow2At32()
    ensures Pow2(32) == TWO32
  {
    assert Pow2(8) == 256;
    Pow2Add(8, 8);
    Pow2Add(16, 16);
  }

  /** Bitwise exclusive or of two non-negative integers. */
  function Xor(a: nat, b: nat): nat
    decreases a + b
  {
    if a == 0 && b == 0 then 0 else 2 * Xor(a / 2, b / 2) + (a % 2 + b % 2) % 2
  }

  /** Bitwise or of two non-negative integers. */
  function Or(a: nat, b: nat): nat
    decreases a + b
  {
    if a == 0 && b == 0 then 0 else 2 * Or(a / 2, b / 2) + (if a % 2 + b % 2 > 0 then 1 else 0)
  }

  /** On operands of `w` bits, both results have at most `w` bits. */
  lemma {:induction false} BitsBound(a: nat, b: nat, w: nat)
    requires a < Pow2(w) && b < Pow2(w)
    ensures Xor(a, b) < Pow2(w) && Or(a, b) < Pow2(w)
    decreases w
  {
    if w > 0 && !(a == 0 && b == 0) {
      BitsBound(a / 2, b / 2, w - 1);
    }
  }

  /** Exclusive or with itself clears every bit; exclusive or and or with
      zero change nothing, and or with itself changes nothing. */
  lemma {:induction false} BitsIdentities(a: nat)
    ensures Xor(a, a) == 0
    ensures Xor(a, 0) == a && Or(a, 0) == a && Or(a, a) == a
    decreases a
  {
    if a > 0 {
      BitsIdentities(a / 2);
    }
  }

  /** Both operations are symmetric. */
  lemma {:induction false} BitsCommute(a: nat, b: nat)
    ensures Xor(a, b) == Xor(b, a) && Or(a, b) == Or(b, a)
    decreases a + b
  {
    if !(a == 0 && b == 0) {
      BitsCommute(a / 2, b / 2);
    }
  }

  /** `Math.imul`: the low 32 bits of the product. */
  function Imul(a: nat, b: nat): nat {
    (a * b) % TWO32
  }

  /** The 32-bit mixing steps, on unsigned 32-bit values. The 32-bit `^`, `|`,
      `>>>` and `Math.imul` read only the low 32 bits of their operands, and
      a sum is cut to 32 bits by the `^` that reads it. */
  function MixBits(t0: nat): (u: nat)
    requires t0 < TWO32
    ensures u < TWO32
  {
    Pow2At32();
    BitsBound(t0, t0 / 0x8000, 32);
    BitsBound(t0, 1, 32);
    var t1 := Imul(Xor(t0, t0 / 0x8000), Or(t0, 1));
    BitsBound(t1, t1 / 0x80, 32);
    BitsBound(t1, 61, 32);
    var t2 := Xor(t1, (t1 + Imul(Xor(t1, t1 / 0x80), Or(t1, 61))) % TWO32);
    BitsBound(t1, (t1 + Imul(Xor(t1, t1 / 0x80), Or(t1, 61))) % TWO32, 32);
    BitsBound(t2, t2 / 0x4000, 32);
    Xor(t2, t2 / 0x4000)
  }

  /** An unsigned 32-bit value divided by 2^32. */
  function Unit(u: nat): (n: real)
    requires u < TWO32
    ensures 0.0 <= n < 1.0
  {
    u as real / 4294967296.0
  }

  /** The output for the state `s` reached after the increment; `ToUint32`
      of an integer is its remainder modulo 2^32. */
  function Mix(s: int): (n: real)
    ensures 0.0 <= n < 1.0
  {
    Unit(MixBits(s % TWO32))
  }

  /** The closure `mulberry32(seed)` returns, with the number it captures. */
  class Mulberry32 {
    var seed: int

    constructor(seed: int)
      ensures this.seed == seed
    {
      this.seed := seed;
    }

    /** One call of the closure. */
    method Next() returns (n: real)
      modifies this
      ensures seed == old(seed) + INCREMENT
      ensures n == Mix(seed) && 0.0 <= n < 1.0
    {
      seed := seed + 0x6d2b79f5;
      n := Mix(seed);
    }
  }

  /** The `k`-th output (from 0) of a generator seeded with `seed`. */
  function Nth(seed: int, k: nat): real {
    Mix(seed + k * INCREMENT + INCREMENT)
  }

  /** The first `n` outputs of a generator whose captured number is `seed`,
      in order: each call moves the number on by the increment. */
  function Draws(seed: int, n: nat): (r: seq<real>)
    ensures |r| == n
    decreases n
  {
    if n == 0 then [] else [Mix(seed + INCREMENT)] + Draws(seed + INCREMENT, n - 1)
  }

  /** The `k`-th of the first `n` draws is the `k`-th output: the sequence
      depends on nothing but the seed. */
  lemma {:induction false} DrawsAt(seed: int, n: nat, k: nat)
    requires k < n
    ensures Draws(seed, n)[k] == Nth(seed, k)
    decreases k
  {
    if k > 0 {
      DrawsAt(seed + INCREMENT, n - 1, k - 1);
      NthShift(seed, k);
    }
  }

  /** The `k`-th output is the `k - 1`-th one after the first call. */
  lemma NthShift(seed: int, k: nat)
    requires k > 0
    ensures Nth(seed + INCREMENT, k - 1) == Nth(seed, k)
  {
    assert seed + INCREMENT + (k - 1) * INCREMENT + INCREMENT == seed + k * INCREMENT + INCREMENT;
  }
}
