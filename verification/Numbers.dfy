/** Machine limits and small arithmetic shared by the models. */
module Numbers {

  const U32_MAX: nat := 0xffff_ffff
  const U64_MAX: nat := 0xffff_ffff_ffff_ffff
  const USIZE_MAX: nat := U64_MAX
  const U128_MAX: nat := 0xffff_ffff_ffff_ffff_ffff_ffff_ffff_ffff

  function Min(x: nat, y: nat): nat { if x <= y then x else y }

  function Max(x: nat, y: nat): nat { if x <= y then y else x }

  function MaxReal(x: real, y: real): real { if x < y then y else x }

  function AbsReal(x: real): real { if x < 0.0 then -x else x }

  /** Multiplication under a name, so that equal factors make equal products. */
  function Times(x: real, y: real): real { x * y }

  lemma TimesStrict(x: real, y: real, m: real)
    requires x < y && m > 0.0
    ensures Times(x, m) < Times(y, m)
  {}

  lemma TimesOrdered(x: real, y: real, m: real)
    requires x <= y && m >= 0.0
    ensures Times(x, m) <= Times(y, m)
  {}

  lemma TimesCommutes(x: real, y: real)
    ensures Times(x, y) == Times(y, x)
  {}

  lemma TimesNat(m: nat, n: nat)
    ensures (m * n) as real == Times(m as real, n as real)
  {}

  lemma DivideNext(m: nat, n: nat)
    requires n > 0
    ensures (m + 1) / n == m / n + (if m % n == n - 1 then 1 else 0)
    ensures (m + 1) % n == if m % n == n - 1 then 0 else m % n + 1
  {
    var q, r := m / n, m % n;
    assert m + 1 == q * n + (r + 1);
    if r == n - 1 {
      DivideUnique(m + 1, n, q + 1, 0);
    } else {
      DivideUnique(m + 1, n, q, r + 1);
    }
  }

  lemma DivideUnique(m: nat, n: nat, q: nat, r: nat)
    requires n > 0 && r < n && m == q * n + r
    ensures m / n == q && m % n == r
  {
    var q', r' := m / n, m % n;
    assert m == q' * n + r';
    if q < q' {
      Larger(q + 1, q', n);
    } else if q' < q {
      Larger(q' + 1, q, n);
    }
  }

  lemma Larger(x: nat, y: nat, n: nat)
    requires x <= y
    ensures x * n <= y * n
  {}
}
