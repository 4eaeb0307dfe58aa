/** Euclidean division by witnesses: naming the quotient and remainder settles them. */
module Division {
  lemma AtLeast(d: int, k: int)
    requires 0 < d && 0 < k
    ensures d <= d * k
  {
  }

  lemma Same(d: int, q: int, r: int, q': int, r': int)
    requires 0 <= r < d && 0 <= r' < d && d * q + r == d * q' + r'
    ensures q == q' && r == r'
  {
    assert d * (q' - q) == d * q' - d * q && d * (q - q') == d * q - d * q';
    if q < q' {
      AtLeast(d, q' - q);
    }
    if q' < q {
      AtLeast(d, q - q');
    }
  }

  lemma Quotient(x: int, d: int, q: int, r: int)
    requires 0 <= r < d && x == d * q + r
    ensures x / d == q && x % d == r
  {
    Same(d, q, r, x / d, x % d);
  }
}
