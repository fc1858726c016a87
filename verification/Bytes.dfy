/** Bytes and little-endian fixed-width integers. */
module Bytes {
  import Bits

  type byte = x: nat | x < 256

  function Pow256(k: nat): (p: nat)
    ensures p > 0
  {
    if k == 0 then 1 else 256 * Pow256(k - 1)
  }

  /** The k low-order bytes of n, least significant first. */
  function ToLE(n: nat, k: nat): (s: seq<byte>)
    ensures |s| == k
  {
    if k == 0 then [] else [n % 256] + ToLE(n / 256, k - 1)
  }

  function FromLE(s: seq<byte>): nat
  {
    if s == [] then 0 else s[0] + 256 * FromLE(s[1..])
  }

  lemma {:induction false} FromToLE(n: nat, k: nat)
    requires n < Pow256(k)
    ensures FromLE(ToLE(n, k)) == n
  {
    if k > 0 {
      FromToLE(n / 256, k - 1);
      assert ToLE(n, k)[1..] == ToLE(n / 256, k - 1);
    }
  }

  /** Byte k of the little-endian form is digit k in base 256. */
  lemma {:induction false} ToLEDigit(n: nat, width: nat, k: nat)
    requires k < width
    ensures ToLE(n, width)[k] == n / Pow256(k) % 256
    decreases k
  {
    if k > 0 {
      ToLEDigit(n / 256, width - 1, k - 1);
      DivTwice(n, Pow256(k - 1));
    }
  }

  lemma DivTwice(n: nat, p: nat)
    requires p > 0
    ensures n / 256 / p == n / (256 * p)
  {
    var q := n / (256 * p);
    var r := n % (256 * p);
    assert n == 256 * p * q + r;
    assert n / 256 == p * q + r / 256 by {
      assert n == 256 * (p * q) + r;
    }
    assert r / 256 < p;
    Bits.EuclidUnique(n / 256, p, q, r / 256);
  }

  lemma {:induction false} ZerosLE(k: nat)
    ensures ToLE(0, k) == seq(k, _ => 0)
  {
    if k > 0 {
      ZerosLE(k - 1);
    }
  }

  lemma {:induction false} OnesLE(k: nat)
    ensures ToLE(Pow256(k) - 1, k) == seq(k, _ => 255)
  {
    if k > 0 {
      OnesLE(k - 1);
      Bits.EuclidUnique(Pow256(k) - 1, 256, Pow256(k - 1) - 1, 255);
    }
  }

  lemma WidthOf4()
    ensures Pow256(4) == 0x1_0000_0000
  {
    assert Pow256(2) == 0x1_0000;
  }

  lemma WidthOf8()
    ensures Pow256(8) == 0x1_0000_0000_0000_0000
  {
    assert Pow256(2) == 0x1_0000;
    assert Pow256(4) == 0x1_0000 * Pow256(2);
    assert Pow256(6) == 0x1_0000 * Pow256(4);
  }
}
