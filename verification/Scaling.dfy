// Multiplication and division by powers of ten, digit by digit.
module Scaling {
  import opened Digits

  // n * 10^k
  function Scale(n: nat, k: nat): nat {
    if k == 0 then n else 10 * Scale(n, k - 1)
  }

  // n / 10^k: all but the last k digits.
  function High(n: nat, k: nat): nat {
    if k == 0 then n else High(n / 10, k - 1)
  }

  // n % 10^k: the last k digits.
  function Low(n: nat, k: nat): (r: nat)
    ensures r < Pow10(k)
  {
    if k == 0 then 0 else 10 * Low(n / 10, k - 1) + n % 10
  }

  lemma ScaleOne(k: nat)
    ensures Scale(1, k) == Pow10(k)
  {
  }

  lemma ScaleAdds(n: nat, m: nat, k: nat)
    ensures Scale(n + m, k) == Scale(n, k) + Scale(m, k)
  {
    if k > 0 {
      ScaleAdds(n, m, k - 1);
    }
  }

  lemma ScaleScale(n: nat, a: nat, b: nat)
    ensures Scale(Scale(n, a), b) == Scale(n, a + b)
  {
    if b > 0 {
      ScaleScale(n, a, b - 1);
    }
  }

  lemma ScaleOrder(n: nat, m: nat, k: nat)
    ensures n < m <==> Scale(n, k) < Scale(m, k)
    ensures n == m <==> Scale(n, k) == Scale(m, k)
    ensures n == 0 <==> Scale(n, k) == 0
  {
    if k > 0 {
      ScaleOrder(n, m, k - 1);
    }
  }

  // The two parts make up the number.
  lemma HighLow(n: nat, k: nat)
    ensures n == Scale(High(n, k), k) + Low(n, k)
  {
    if k > 0 {
      HighLow(n / 10, k - 1);
    }
  }

  // And no other two parts do.
  lemma HighLowUnique(n: nat, k: nat, q: nat, r: nat)
    requires n == Scale(q, k) + r && r < Pow10(k)
    ensures High(n, k) == q && Low(n, k) == r
  {
    HighLow(n, k);
    var h := High(n, k);
    ScaleOne(k);
    if h < q {
      ScaleAdds(h, 1, k);
      ScaleOrderLe(h + 1, q, k);
    } else if h > q {
      ScaleAdds(q, 1, k);
      ScaleOrderLe(q + 1, h, k);
    }
  }

  lemma ScaleOrderLe(n: nat, m: nat, k: nat)
    requires n <= m
    ensures Scale(n, k) <= Scale(m, k)
  {
    ScaleOrder(m, n, k);
  }

  // The high part is below a bound exactly when the number is below the bound scaled up.
  lemma HighBelow(n: nat, k: nat, bound: nat)
    ensures High(n, k) < bound <==> n < Scale(bound, k)
  {
    HighLow(n, k);
    var h := High(n, k);
    ScaleOne(k);
    ScaleAdds(h, 1, k);
    if h < bound {
      ScaleOrderLe(h + 1, bound, k);
    } else {
      ScaleOrderLe(bound, h, k);
    }
  }
}
