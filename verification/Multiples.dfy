/** Multiplication by repeated addition, so that indices into blocks are reasoned about linearly. */
module Multiples {
  function Times(k: nat, n: nat): nat {
    if k == 0 then 0 else Times(k - 1, n) + n
  }

  lemma TimesNext(k: nat, n: nat)
    ensures Times(0, n) == 0 && Times(k + 1, n) == Times(k, n) + n
  {
  }

  lemma {:induction false} TimesIsProduct(k: nat, n: nat)
    ensures Times(k, n) == k * n
  {
    if k != 0 {
      TimesIsProduct(k - 1, n);
    }
  }

  lemma {:induction false} TimesMonotone(j: nat, k: nat, n: nat)
    requires j <= k
    ensures Times(j, n) <= Times(k, n)
  {
    if j < k {
      TimesMonotone(j, k - 1, n);
    }
  }

  /** Block j ends before block k starts. */
  lemma TimesApart(j: nat, k: nat, n: nat)
    requires j < k
    ensures Times(j, n) + n <= Times(k, n)
  {
    TimesMonotone(j + 1, k, n);
  }

  /** At most one block holds a given index. */
  lemma TimesUnique(j: nat, k: nat, i: nat, n: nat)
    requires Times(j, n) <= i < Times(j + 1, n)
    requires Times(k, n) <= i < Times(k + 1, n)
    ensures j == k
  {
    if j < k {
      TimesMonotone(j + 1, k, n);
    } else if k < j {
      TimesMonotone(k + 1, j, n);
    }
  }

  lemma {:induction false} TimesBeyond(j: nat, k: nat, n: nat)
    requires n >= 1
    ensures Times(j + k, n) >= Times(j, n) + k
  {
    if k > 0 {
      TimesBeyond(j, k - 1, n);
    }
  }

  lemma Divided(a: nat, b: nat)
    requires b > 0
    ensures a / b * b <= a < a / b * b + b
  {
  }

  lemma ModUnique(k: nat, q: nat, r: nat, m: nat)
    requires m > 0 && r < m && k == q * m + r
    ensures k / m == q && k % m == r
  {
    var d := k / m - q;
    assert k == (k / m) * m + k % m;
    assert d * m == r - k % m;
    if d > 0 {
      assert false;
    } else if d < 0 {
      assert false;
    }
  }

  lemma NextMod(j: nat, m: nat)
    requires m > 0
    ensures (j + 1) % m == if j % m + 1 == m then 0 else j % m + 1
  {
    var q, r := j / m, j % m;
    assert j == q * m + r;
    if r + 1 == m {
      assert j + 1 == (q + 1) * m;
      ModUnique(j + 1, q + 1, 0, m);
    } else {
      ModUnique(j + 1, q, r + 1, m);
    }
  }
}
