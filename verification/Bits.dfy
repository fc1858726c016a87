/** Bitwise arithmetic on the naturals, enough to read the mask expressions of
    src/runtime/slots.rs as ordinary integer arithmetic. */
module Bits {

  function Pow2(k: nat): (p: nat)
    ensures p > 0
  {
    if k == 0 then 1 else 2 * Pow2(k - 1)
  }

  /** x & y, bit by bit. */
  function BitAnd(x: nat, y: nat): nat
  {
    if x == 0 || y == 0 then 0
    else (if x % 2 == 1 && y % 2 == 1 then 1 else 0) + 2 * BitAnd(x / 2, y / 2)
  }

  /** x | y, bit by bit. */
  function BitOr(x: nat, y: nat): nat
  {
    if x == 0 && y == 0 then 0
    else (if x % 2 == 1 || y % 2 == 1 then 1 else 0) + 2 * BitOr(x / 2, y / 2)
  }

  /** !m on words that range over 0..size-1, size a power of two. */
  function BitNot(m: nat, size: nat): nat
    requires m < size
  {
    size - 1 - m
  }

  lemma {:induction false} AndAllOnes(x: nat, w: nat)
    requires x < Pow2(w)
    ensures BitAnd(x, Pow2(w) - 1) == x
  {
    if w > 0 && x > 0 {
      var y, half := Pow2(w) - 1, Pow2(w - 1) - 1;
      assert y == 2 * half + 1;
      assert y / 2 == half && y % 2 == 1;
      AndAllOnes(x / 2, w - 1);
      assert BitAnd(x, y) == x % 2 + 2 * BitAnd(x / 2, half);
    }
  }

  lemma {:induction false} ModPow2Step(x: nat, k: nat)
    requires k > 0
    ensures x % Pow2(k) == x % 2 + 2 * ((x / 2) % Pow2(k - 1))
  {
    var p := Pow2(k - 1);
    var q, r := (x / 2) / p, (x / 2) % p;
    assert x == (2 * p) * q + (2 * r + x % 2) by {
      assert x == 2 * (x / 2) + x % 2;
      assert x / 2 == p * q + r;
      assert 2 * (p * q) == (2 * p) * q;
    }
    EuclidUnique(x, 2 * p, q, 2 * r + x % 2);
  }

  /** Division with remainder is unique. */
  lemma {:induction false} EuclidUnique(x: int, d: nat, q: int, r: nat)
    requires d > 0 && x == d * q + r && r < d
    ensures x / d == q && x % d == r
  {
    var q', r' := x / d, x % d;
    assert x == d * q' + r' && 0 <= r' < d;
    if q < q' {
      MulAtLeast(d, q' - q);
    } else if q' < q {
      MulAtLeast(d, q - q');
    }
  }

  lemma {:induction false} MulAtLeast(d: nat, k: int)
    requires k >= 1
    ensures d * k >= d
  {
    assert d * k == d + d * (k - 1);
  }

  /** Clearing the low k bits rounds down to a multiple of 2^k. */
  lemma {:induction false} AndNotMask(x: nat, k: nat, w: nat)
    requires k <= w && x < Pow2(w)
    ensures Pow2(k) - 1 < Pow2(w)
    ensures BitAnd(x, BitNot(Pow2(k) - 1, Pow2(w))) == x - x % Pow2(k)
    decreases k
  {
    Pow2Mono(k, w);
    var y := BitNot(Pow2(k) - 1, Pow2(w));
    if k == 0 {
      AndAllOnes(x, w);
    } else {
      AndNotMask(x / 2, k - 1, w - 1);
      ModPow2Step(x, k);
      assert y == 2 * (Pow2(w - 1) - Pow2(k - 1));
      assert y / 2 == BitNot(Pow2(k - 1) - 1, Pow2(w - 1));
      assert BitAnd(x, y) == 2 * BitAnd(x / 2, y / 2);
    }
  }

  lemma {:induction false} Pow2Mono(k: nat, w: nat)
    requires k <= w
    ensures Pow2(k) <= Pow2(w)
  {
    if k < w {
      Pow2Mono(k, w - 1);
    }
  }

  lemma {:induction false} Pow2Add(a: nat, b: nat)
    ensures Pow2(a + b) == Pow2(a) * Pow2(b)
  {
    if a > 0 {
      Pow2Add(a - 1, b);
      var p, q := Pow2(a - 1), Pow2(b);
      assert Pow2(a + b) == 2 * Pow2(a - 1 + b) == 2 * (p * q);
      assert Pow2(a) == 2 * p;
      DoubleProduct(p, q);
    }
  }

  lemma DoubleProduct(p: int, q: int)
    ensures (2 * p) * q == 2 * (p * q)
  {
  }

  /** The width of a machine word with `size` values, for the two sizes used. */
  lemma WordWidth(size: nat) returns (w: nat)
    requires size == 0x1_0000_0000 || size == 0x1_0000_0000_0000_0000
    ensures w >= 32 && Pow2(w) == size
    ensures size == 0x1_0000_0000_0000_0000 ==> w >= 64
  {
    w := 8;
    assert Pow2(w) == 256 by {
      assert Pow2(4) == 16;
      Pow2Add(4, 4);
    }
    var half := Doubled(w, 256);
    w := Doubled(half, 0x1_0000);
    if size != 0x1_0000_0000 {
      w := Doubled(w, 0x1_0000_0000);
    }
  }

  lemma Doubled(k: nat, p: nat) returns (w: nat)
    requires Pow2(k) == p
    ensures w == 2 * k && Pow2(w) == p * p
  {
    w := k + k;
    Pow2Add(k, k);
  }

  /** Setting bit 0 of an even number. */
  lemma OrBitZero(x: nat, bit: nat)
    requires x % 2 == 0 && bit < 2
    ensures BitOr(x, bit) == x + bit
  {
    OrZero(x / 2);
    assert bit / 2 == 0;
  }

  lemma {:induction false} OrZero(x: nat)
    ensures BitOr(x, 0) == x
  {
    if x > 0 {
      OrZero(x / 2);
    }
  }

  lemma AndBitZero(x: nat)
    ensures BitAnd(x, 1) == x % 2
  {
    assert BitAnd(x / 2, 0) == 0;
  }

  lemma ModShift(x: nat, q: nat, n: nat)
    requires n > 0
    ensures (n * q + x) % n == x % n
  {
    assert n * q + x == n * (q + x / n) + x % n by {
      assert x == n * (x / n) + x % n;
      assert n * (q + x / n) == n * q + n * (x / n);
    }
    EuclidUnique(n * q + x, n, q + x / n, x % n);
  }
}
