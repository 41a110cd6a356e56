/** Bytes and the little-endian integers of the wire format. */
module Bytes {
  type byte = b: int | 0 <= b < 256

  function Pow256(k: nat): (p: nat)
    ensures p > 0
  {
    if k == 0 then 1 else 256 * Pow256(k - 1)
  }

  /** The low `k` bytes of `n`, least significant first: to_le_bytes. */
  function Le(n: nat, k: nat): (s: seq<byte>)
    ensures |s| == k
  {
    if k == 0 then [] else [n % 256] + Le(n / 256, k - 1)
  }

  /** from_le_bytes. */
  function FromLe(s: seq<byte>): nat {
    if s == [] then 0 else s[0] + 256 * FromLe(s[1..])
  }

  lemma {:induction false} FromLeOfLe(n: nat, k: nat)
    requires n < Pow256(k)
    ensures FromLe(Le(n, k)) == n
  {
    if k == 0 {
    } else {
      FromLeOfLe(n / 256, k - 1);
      assert Le(n, k)[1..] == Le(n / 256, k - 1);
    }
  }

  lemma {:induction false} LeOfFromLe(s: seq<byte>)
    ensures Le(FromLe(s), |s|) == s && FromLe(s) < Pow256(|s|)
  {
    if s == [] {
    } else {
      LeOfFromLe(s[1..]);
      assert FromLe(s) % 256 == s[0] && FromLe(s) / 256 == FromLe(s[1..]);
    }
  }

  /** Least significant byte first. */
  lemma {:induction false} LeAt(n: nat, k: nat, i: nat)
    requires i < k
    ensures Le(n, k)[i] == n / Pow256(i) % 256
  {
    if i > 0 {
      LeAt(n / 256, k - 1, i - 1);
      DivTwice(n, Pow256(i - 1));
    }
  }

  lemma DivTwice(n: nat, p: nat)
    requires p > 0
    ensures n / 256 / p == n / (256 * p)
  {
    var q := n / 256 / p;
    var r, s := n / 256 % p, n % 256;
    assert n / 256 == p * q + r && n == 256 * (n / 256) + s;
    assert n == 256 * p * q + (256 * r + s) by {
      assert 256 * (p * q + r) == 256 * p * q + 256 * r;
    }
    assert 256 * r + s < 256 * p;
    Quotient(n, 256 * p, q, 256 * r + s);
  }

  lemma Quotient(n: nat, d: nat, q: nat, r: nat)
    requires d > 0 && n == d * q + r && r < d
    ensures n / d == q
  {
    var e := n / d - q;
    assert n == d * (n / d) + n % d;
    assert d * e == r - n % d by {
      assert d * e == d * (n / d) - d * q;
    }
    assert e >= 1 ==> d * e >= d;
    assert e <= -1 ==> d * e + d <= 0;
  }

  lemma FromLeTwo(s: seq<byte>)
    requires |s| == 2
    ensures FromLe(s) == s[0] as nat + 0x100 * s[1] as nat
  {
    assert s[1..][1..] == [] && s[1..][0] == s[1];
    assert FromLe(s[1..]) == s[1] + 256 * FromLe([]);
  }

  lemma FromLeFour(s: seq<byte>)
    requires |s| == 4
    ensures FromLe(s) == s[0] as nat + 0x100 * s[1] as nat + 0x1_0000 * s[2] as nat + 0x100_0000 * s[3] as nat
  {
    var t := s[1..][1..];
    FromLeTwo(t);
    assert FromLe(s[1..]) == s[1] + 256 * FromLe(t);
  }

  /** The byte widths the protocol uses. */
  lemma Widths()
    ensures Pow256(2) == 0x1_0000 && Pow256(4) == 0x1_0000_0000 && Pow256(8) == 0x1_0000_0000_0000_0000
  {
    assert Pow256(1) == 256 * Pow256(0);
    assert Pow256(2) == 256 * Pow256(1);
    assert Pow256(3) == 256 * Pow256(2);
    assert Pow256(4) == 256 * Pow256(3);
    assert Pow256(5) == 256 * Pow256(4);
    assert Pow256(6) == 256 * Pow256(5);
    assert Pow256(7) == 256 * Pow256(6);
  }
}
