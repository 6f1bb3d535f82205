/**
  Facts about remainders by a positive modulus, for ring positions.
 */
module Modular {

  lemma SmallMultiple(n: nat, q: int)
    ensures q >= 1 ==> n * q >= n
    ensures q <= -1 ==> n * q <= -(n as int)
    ensures q == 0 ==> n * q == 0
  {
    if q >= 1 {
      assert n * q == n * (q - 1) + n;
    } else if q <= -1 {
      assert n * q == n * (q + 1) - n;
    }
  }

  lemma ModIs(k: nat, n: nat, q: int, r: nat)
    requires r < n && k == n * q + r
    ensures k % n == r && k / n == q
  {
    var d := k / n - q;
    assert k == n * (k / n) + k % n;
    assert n * d == n * (k / n) - n * q;
    SmallMultiple(n, d);
  }

  lemma ModSmall(k: nat, n: nat)
    requires k < n
    ensures k % n == k
  {
    ModIs(k, n, 0, k);
  }

  lemma ModWrap(k: nat, n: nat)
    requires n > 0
    ensures (k + n) % n == k % n
  {
    assert k + n == n * (k / n) + k % n + n == n * (k / n + 1) + k % n;
    ModIs(k + n, n, k / n + 1, k % n);
  }

  // Reducing a summand first does not change the remainder.
  lemma ModAdd(k: nat, d: nat, n: nat)
    requires n > 0
    ensures (k % n + d) % n == (k + d) % n
  {
    var x := k % n + d;
    var q := x / n + k / n;
    assert k + d == n * (k / n) + x == n * (k / n) + n * (x / n) + x % n;
    assert n * q == n * (x / n) + n * (k / n);
    ModIs(k + d, n, q, x % n);
  }

  lemma ModDistinct(j: nat, k: nat, n: nat)
    requires n > 0 && j < k < j + n
    ensures j % n != k % n
  {
    var q := k / n - j / n;
    assert k - j == n * (k / n) + k % n - n * (j / n) - j % n;
    assert n * q == n * (k / n) - n * (j / n);
    SmallMultiple(n, q);
  }

  // Positions of a window no longer than the ring: equal only if the same.
  lemma ModInjective(base: nat, i: nat, j: nat, n: nat)
    requires n > 0 && i < n && j < n && (base + i) % n == (base + j) % n
    ensures i == j
  {
    if i < j {
      ModDistinct(base + i, base + j, n);
    } else if j < i {
      ModDistinct(base + j, base + i, n);
    }
  }

  // The remainder again, by repeated subtraction.
  function Wrap(a: nat, n: nat): (r: nat)
    requires n > 0
    ensures r < n
  {
    if a < n then a else Wrap(a - n, n)
  }

  lemma {:induction false} WrapIsMod(a: nat, n: nat)
    requires n > 0
    ensures Wrap(a, n) == a % n
  {
    if a < n {
      ModSmall(a, n);
    } else {
      WrapIsMod(a - n, n);
      ModWrap(a - n, n);
    }
  }

  lemma WrapAdd(a: nat, d: nat, n: nat)
    requires n > 0
    ensures (Wrap(a, n) + d) % n == Wrap(a + d, n)
  {
    WrapIsMod(a, n);
    WrapIsMod(a + d, n);
    ModAdd(a, d, n);
  }

  lemma WrapWrap(a: nat, d: nat, n: nat)
    requires n > 0
    ensures Wrap(Wrap(a, n) + d, n) == Wrap(a + d, n)
  {
    WrapAdd(a, d, n);
    WrapIsMod(Wrap(a, n) + d, n);
  }

  lemma WrapInjective(first: nat, i: nat, j: nat, n: nat)
    requires n > 0 && i < n && j < n && Wrap(first + i, n) == Wrap(first + j, n)
    ensures i == j
  {
    WrapIsMod(first + i, n);
    WrapIsMod(first + j, n);
    ModInjective(first, i, j, n);
  }

  function Pow2(k: nat): (p: nat)
    ensures p > 0
  {
    if k == 0 then 1 else 2 * Pow2(k - 1)
  }
}
