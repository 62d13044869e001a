/** Quotients, remainders and least common multiples of natural numbers. */
module Division {
  import opened Counting

  predicate CommonMultiple(k: nat, d: nat, m: nat)
    requires k > 0 && d > 0
  {
    m > 0 && m % k == 0 && m % d == 0
  }

  // The least common multiple, found by search below the product.
  function LcmFrom(k: nat, d: nat, m: nat): (l: nat)
    requires k > 0 && d > 0 && 0 < m <= k * d && CommonMultiple(k, d, k * d)
    ensures CommonMultiple(k, d, l) && m <= l
    ensures forall x :: m <= x < l ==> !CommonMultiple(k, d, x)
    decreases k * d - m
  {
    if CommonMultiple(k, d, m) then m else LcmFrom(k, d, m + 1)
  }

  lemma ProductIsCommonMultiple(k: nat, d: nat)
    requires k > 0 && d > 0
    ensures k * d > 0 && CommonMultiple(k, d, k * d)
  {
    ModOfProduct(k, d);
    ModOfProduct(d, k);
    assert k * d == d * k;
  }

  lemma MulMonotone(k: nat, a: nat, b: nat)
    requires a <= b
    ensures k * a <= k * b
  {
    assert k * b == k * a + k * (b - a);
  }

  lemma DivUnique(n: nat, k: nat, q: nat, r: nat)
    requires k > 0 && n == k * q + r && r < k
    ensures n / k == q && n % k == r
  {
    var p := n / k;
    assert n == k * p + n % k;
    if p > q {
      MulMonotone(k, q + 1, p);
    } else if p < q {
      MulMonotone(k, p + 1, q);
    }
  }

  lemma ModOfProduct(k: nat, q: nat)
    requires k > 0
    ensures (q * k) % k == 0 && (k * q) % k == 0
  {
    assert q * k == k * q;
    DivUnique(k * q, k, q, 0);
  }

  function Lcm(k: nat, d: nat): (l: nat)
    requires k > 0 && d > 0
    ensures CommonMultiple(k, d, l)
    ensures forall x :: 0 < x < l ==> !CommonMultiple(k, d, x)
  {
    ProductIsCommonMultiple(k, d);
    LcmFrom(k, d, 1)
  }

  lemma ModDifference(a: nat, b: nat, k: nat)
    requires k > 0 && b <= a && a % k == 0 && b % k == 0
    ensures (a - b) % k == 0
  {
    var p, q := a / k, b / k;
    assert a == k * p && b == k * q;
    assert a - b == k * (p - q);
    assert p >= q;
    ModOfProduct(k, p - q);
  }

  // Every common multiple is a multiple of the least one.
  lemma CommonMultipleOfLcm(k: nat, d: nat, m: nat)
    requires k > 0 && d > 0 && m % k == 0 && m % d == 0
    ensures m % Lcm(k, d) == 0
  {
    var l := Lcm(k, d);
    var q, r := m / l, m % l;
    assert m == l * q + r;
    MultipleOfMultiple(l, q, k);
    MultipleOfMultiple(l, q, d);
    assert l * q <= m;
    ModDifference(m, l * q, k);
    ModDifference(m, l * q, d);
    if r > 0 {
      assert CommonMultiple(k, d, r);
      assert false;
    }
  }

  lemma {:induction false} MultipleOfMultiple(l: nat, q: nat, k: nat)
    requires k > 0 && l % k == 0
    ensures (l * q) % k == 0
  {
    var p := l / k;
    assert l == k * p;
    assert l * q == k * (p * q);
    ModOfProduct(k, p * q);
  }

  lemma LcmMultiple(k: nat, d: nat, m: nat)
    requires k > 0 && d > 0 && m % Lcm(k, d) == 0
    ensures m % k == 0 && m % d == 0
  {
    var l := Lcm(k, d);
    assert m == l * (m / l);
    MultipleOfMultiple(l, m / l, k);
    MultipleOfMultiple(l, m / l, d);
  }

  function Div(n: nat, k: nat): nat {
    if k == 0 then 0 else n / k
  }

  // n / k grows exactly at the multiples of k.
  lemma DivStep(n: nat, k: nat)
    requires k > 0 && n > 0
    ensures n / k == (n - 1) / k + Bit(n % k == 0)
  {
    var q, r := (n - 1) / k, (n - 1) % k;
    assert n - 1 == k * q + r;
    if r == k - 1 {
      assert n == k * (q + 1);
      DivUnique(n, k, q + 1, 0);
    } else {
      DivUnique(n, k, q, r + 1);
    }
  }

  lemma NextNotMultiple(n: nat, k: nat)
    requires k >= 2 && n % k == 0
    ensures (n + 1) % k != 0
  {
    assert n == k * (n / k);
    DivUnique(n + 1, k, n / k, 1);
  }
}
