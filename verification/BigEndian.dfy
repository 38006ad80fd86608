/** Fixed-width big-endian encodings, bit lengths and their inverses. */
module BigEndian {
  import opened Types

  function Pow256(k: nat): (p: nat)
    ensures p > 0
  {
    if k == 0 then 1 else 256 * Pow256(k - 1)
  }

  /** The `len` low bytes of `n`, most significant first. */
  function ToBE(n: nat, len: nat): (bs: Bytes)
    ensures |bs| == len
  {
    if len == 0 then [] else ToBE(n / 256, len - 1) + [n % 256]
  }

  function FromBE(bs: Bytes): nat {
    if bs == [] then 0 else 256 * FromBE(bs[..|bs| - 1]) + bs[|bs| - 1]
  }

  function BitLen(n: nat): nat {
    if n == 0 then 0 else 1 + BitLen(n / 2)
  }

  function Pow2(k: nat): (p: nat)
    ensures p > 0
  {
    if k == 0 then 1 else 2 * Pow2(k - 1)
  }

  lemma ProductAssociates(k: nat, x: nat, y: nat)
    ensures k * (x * y) == (k * x) * y
  {
  }

  lemma {:induction false} Pow256Add(a: nat, b: nat)
    ensures Pow256(a + b) == Pow256(a) * Pow256(b)
  {
    if a > 0 {
      Pow256Add(a - 1, b);
      ProductAssociates(256, Pow256(a - 1), Pow256(b));
    }
  }

  lemma Pow256Values()
    ensures Pow256(16) == TWO_128
    ensures Pow256(20) == TWO_160
    ensures Pow256(32) == TWO_256
  {
    assert Pow256(4) == 0x1_0000_0000 by {
      assert Pow256(2) == 0x1_0000;
      Pow256Add(2, 2);
    }
    Pow256Add(4, 4);
    Pow256Add(8, 8);
    Pow256Add(16, 4);
    Pow256Add(16, 16);
  }

  lemma {:induction false} Pow2Add(a: nat, b: nat)
    ensures Pow2(a + b) == Pow2(a) * Pow2(b)
  {
    if a > 0 {
      Pow2Add(a - 1, b);
      ProductAssociates(2, Pow2(a - 1), Pow2(b));
    }
  }

  lemma Pow2Double(a: nat, p: nat)
    requires Pow2(a) == p
    ensures Pow2(2 * a) == p * p
  {
    Pow2Add(a, a);
  }

  lemma Pow2Of128()
    ensures Pow2(128) == TWO_128
  {
    Pow2Double(1, 2);
    Pow2Double(2, 4);
    Pow2Double(4, 0x10);
    Pow2Double(8, 0x100);
    Pow2Double(16, 0x1_0000);
    Pow2Double(32, 0x1_0000_0000);
    Pow2Double(64, TWO_64);
  }

  /** A number needs at most `k` bits exactly when it is below `2^k`. */
  lemma {:induction false} BitLenBound(n: nat, k: nat)
    ensures BitLen(n) <= k <==> n < Pow2(k)
  {
    if n > 0 && k > 0 {
      BitLenBound(n / 2, k - 1);
    }
  }

  /** The range test of the packer is the uint128 range. */
  lemma BitLen128(n: nat)
    ensures BitLen(n) > 128 <==> n >= TWO_128
  {
    Pow2Of128();
    BitLenBound(n, 128);
  }

  lemma {:induction false} FromToBE(n: nat, len: nat)
    requires n < Pow256(len)
    ensures FromBE(ToBE(n, len)) == n
  {
    if len > 0 {
      FromToBE(n / 256, len - 1);
      var bs := ToBE(n, len);
      assert bs[..len - 1] == ToBE(n / 256, len - 1);
    }
  }

  lemma {:induction false} FromBEBound(bs: Bytes)
    ensures FromBE(bs) < Pow256(|bs|)
  {
    if bs != [] {
      FromBEBound(bs[..|bs| - 1]);
    }
  }

  lemma {:induction false} ToFromBE(bs: Bytes)
    ensures ToBE(FromBE(bs), |bs|) == bs
  {
    if bs != [] {
      var front := bs[..|bs| - 1];
      ToFromBE(front);
      assert FromBE(bs) / 256 == FromBE(front);
      assert bs == front + [bs[|bs| - 1]];
    }
  }

  lemma ShiftSum(x: nat, p: nat, y: nat, last: nat)
    ensures 256 * (x * p + y) + last == x * (256 * p) + (256 * y + last)
  {
  }

  lemma {:induction false} FromBEConcat(a: Bytes, b: Bytes)
    ensures FromBE(a + b) == FromBE(a) * Pow256(|b|) + FromBE(b)
  {
    if b == [] {
      assert a + b == a;
    } else {
      var front := b[..|b| - 1];
      var last := b[|b| - 1];
      FromBEConcat(a, front);
      assert (a + b)[..|a + b| - 1] == a + front;
      ShiftSum(FromBE(a), Pow256(|front|), FromBE(front), last);
    }
  }

  /** The low `k` bytes of a wider encoding are the `k`-byte encoding. */
  lemma {:induction false} ToBESuffix(n: nat, len: nat, k: nat)
    requires k <= len
    ensures ToBE(n, len)[len - k..] == ToBE(n, k)
  {
    if k > 0 {
      ToBESuffix(n / 256, len - 1, k - 1);
      assert ToBE(n, len)[len - k..] == ToBE(n / 256, len - 1)[len - k..] + [n % 256];
    }
  }
}
