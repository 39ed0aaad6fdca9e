/** 64-bit integers, rounding to multiples, and totals over maps. */
module Numbers {

  type Int64 = x: int | -0x8000_0000_0000_0000 <= x < 0x8000_0000_0000_0000

  /** The conversion to an unsigned integer keeps the bits. */
  function ToUint64(x: Int64): nat {
    if x < 0 then x + 0x1_0000_0000_0000_0000 else x
  }

  /** The smallest multiple of e that is not below n. */
  function RoundUp(n: nat, e: nat): (r: nat)
    requires e > 0
  {
    (n + e - 1) / e * e
  }

  lemma ProductAtLeast(k: int, e: nat)
    requires k >= 1
    ensures k * e >= e
  {
    assert k * e == (k - 1) * e + e;
  }

  lemma DivModIs(n: int, e: nat, q: int, r: nat)
    requires e > 0 && n == q * e + r && r < e
    ensures n / e == q && n % e == r
  {
    var q' := n / e;
    assert n == q' * e + n % e;
    assert (q - q') * e == q * e - q' * e;
    if q' < q {
      ProductAtLeast(q - q', e);
    } else if q < q' {
      assert (q' - q) * e == q' * e - q * e;
      ProductAtLeast(q' - q, e);
    }
  }

  lemma MultipleOf(k: int, e: nat)
    requires e > 0
    ensures (k * e) % e == 0 && (k * e) / e == k
  {
    DivModIs(k * e, e, k, 0);
  }

  lemma RoundUpBelow(n: nat, e: nat, m: nat)
    requires e > 0 && m % e == 0 && n <= m
    ensures RoundUp(n, e) <= m
  {
    var q, k := (n + e - 1) / e, m / e;
    assert q * e <= n + e - 1;
    assert m == k * e;
    assert (q - k) * e == q * e - k * e;
    if q > k {
      ProductAtLeast(q - k, e);
    }
  }

  lemma RoundUpIsLeast(n: nat, e: nat)
    requires e > 0
    ensures RoundUp(n, e) % e == 0 && n <= RoundUp(n, e) < n + e
    ensures forall m: nat :: m % e == 0 && n <= m ==> RoundUp(n, e) <= m
    ensures n % e == 0 ==> RoundUp(n, e) == n
  {
    var q := (n + e - 1) / e;
    MultipleOf(q, e);
    assert n + e - 1 == q * e + (n + e - 1) % e;
    forall m: nat | m % e == 0 && n <= m
      ensures RoundUp(n, e) <= m
    {
      RoundUpBelow(n, e, m);
    }
  }

  /** Whatever is not empty takes at least one unit. */
  lemma RoundUpTakesOne(n: nat, e: nat)
    requires n > 0 && e > 0
    ensures RoundUp(n, e) >= e
  {
    var q := (n + e - 1) / e;
    assert n + e - 1 == q * e + (n + e - 1) % e;
    assert q >= 1;
    ProductAtLeast(q, e);
  }

  /** Rounding commutes with a shift by whole units. */
  lemma RoundUpShift(n: nat, v: nat, e: nat)
    requires e > 0 && v % e == 0
    ensures RoundUp(n + v, e) == RoundUp(n, e) + v
  {
    RoundUpIsLeast(n, e);
    RoundUpIsLeast(n + v, e);
    AddMultiples(RoundUp(n, e), v, e);
    SubtractMultiples(RoundUp(n + v, e), v, e);
  }

  lemma AddMultiples(a: nat, b: nat, e: nat)
    requires e > 0 && a % e == 0 && b % e == 0
    ensures (a + b) % e == 0
  {
    assert a + b == (a / e + b / e) * e;
    MultipleOf(a / e + b / e, e);
  }

  lemma SubtractMultiples(a: int, b: int, e: nat)
    requires e > 0 && a % e == 0 && b % e == 0
    ensures (a - b) % e == 0
  {
    assert a - b == (a / e - b / e) * e;
    MultipleOf(a / e - b / e, e);
  }

  /** The sum of all values of a map. */
  ghost function Total(m: map<string, nat>): nat
    decreases |m|
  {
    if |m| == 0 then 0 else m[Pick(m)] + Total(m - {Pick(m)})
  }

  ghost function Pick(m: map<string, nat>): (k: string)
    requires |m| > 0
    ensures k in m
  {
    var k :| k in m;
    k
  }

  lemma {:induction false} TotalWithout(m: map<string, nat>, k: string)
    requires k in m
    ensures Total(m) == m[k] + Total(m - {k})
    decreases |m|
  {
    var k0 := Pick(m);
    if k0 != k {
      TotalWithout(m - {k0}, k);
      TotalWithout(m - {k}, k0);
      assert m - {k0} - {k} == m - {k} - {k0};
    }
  }

  lemma TotalUpdate(m: map<string, nat>, k: string, n: nat)
    ensures k !in m ==> Total(m[k := n]) == Total(m) + n
    ensures k in m ==> Total(m[k := n]) == Total(m) - m[k] + n
  {
    TotalWithout(m[k := n], k);
    if k in m {
      TotalWithout(m, k);
      assert m[k := n] - {k} == m - {k};
    } else {
      assert m[k := n] - {k} == m;
    }
  }

  predicate IsMultiple(n: nat, e: nat)
    requires e > 0
  {
    n % e == 0
  }

  ghost predicate AllMultiples(m: map<string, nat>, e: nat)
    requires e > 0
  {
    forall k {:trigger IsMultiple(m[k], e)} :: k in m ==> IsMultiple(m[k], e)
  }

  lemma AllMultiplesWithout(m: map<string, nat>, e: nat, k: string)
    requires e > 0 && AllMultiples(m, e)
    ensures AllMultiples(m - {k}, e)
  {
    forall j | j in m - {k}
      ensures IsMultiple((m - {k})[j], e)
    {
      assert IsMultiple(m[j], e);
    }
  }

  lemma {:induction false} TotalOfMultiples(m: map<string, nat>, e: nat)
    requires e > 0 && AllMultiples(m, e)
    ensures IsMultiple(Total(m), e)
    decreases |m|
  {
    if |m| > 0 {
      var k := Pick(m);
      AllMultiplesWithout(m, e, k);
      TotalOfMultiples(m - {k}, e);
      assert IsMultiple(m[k], e);
      AddMultiples(m[k], Total(m - {k}), e);
    }
  }
}
