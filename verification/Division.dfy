/** Division with remainder: numbers written with a quotient and a remainder. */
module Division {
  function Quotient(x: nat, n: nat): (q: nat)
    requires n > 0
  {
    x / n
  }

  function Remainder(x: nat, n: nat): (r: nat)
    requires n > 0
    ensures r < n && x == Quotient(x, n) * n + r
  {
    x % n
  }

  lemma CompareMixed(a: nat, b: nat, n: nat, low: nat, other: nat)
    requires low < n && other < n
    ensures a * n + low < b * n + other <==> a < b || (a == b && low < other)
  {
    if a < b {
      assert (a + 1) * n <= b * n;
    } else if a > b {
      assert (b + 1) * n <= a * n;
    }
  }

  lemma SameMixed(a: nat, b: nat, n: nat, low: nat, other: nat)
    requires low < n && other < n && a * n + low == b * n + other
    ensures a == b && low == other
  {
    CompareMixed(a, b, n, low, other);
    CompareMixed(b, a, n, other, low);
  }

  lemma DivModOf(high: nat, n: nat, low: nat)
    requires low < n
    ensures Quotient(high * n + low, n) == high && Remainder(high * n + low, n) == low
  {
    var x := high * n + low;
    SameMixed(Quotient(x, n), high, n, Remainder(x, n), low);
  }

  lemma QuotientBelow(rank: nat, n: nat, total: nat)
    requires n > 0 && rank < total * n
    ensures Quotient(rank, n) < total
  {
    CompareMixed(Quotient(rank, n), total, n, Remainder(rank, n), 0);
  }
}
