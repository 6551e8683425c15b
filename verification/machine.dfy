/** Integers of fixed width, which wrap, and division. */
module Machine {
  const INT64_LIMIT := 0x8000_0000_0000_0000
  const INT_MAX := 0x7FFF_FFFF

  predicate Int64(v: int) { -INT64_LIMIT <= v < INT64_LIMIT }

  predicate Int32(v: int) { -INT_MAX - 1 <= v <= INT_MAX }

  /** Two's-complement wrap-around to 64 and to 32 bits. */
  function Wrap64(n: int): (w: int)
    ensures Int64(w) && (Int64(n) ==> w == n)
  {
    (n + INT64_LIMIT) % (2 * INT64_LIMIT) - INT64_LIMIT
  }

  function Wrap32(n: int): (w: int)
    ensures Int32(w) && (Int32(n) ==> w == n)
  {
    (n + 0x8000_0000) % 0x1_0000_0000 - 0x8000_0000
  }

  /** Wrapping a sum needs no wrapped summand. */
  lemma WrapAdds(n: int, d: int)
    ensures Wrap32(Wrap32(n) + d) == Wrap32(n + d)
  {
    var m := n + 0x8000_0000;
    var q := m / 0x1_0000_0000;
    assert Wrap32(n) == n - q * 0x1_0000_0000;
    WrapPeriod(n + d, -q);
  }

  lemma WrapPeriod(n: int, k: int)
    ensures Wrap32(n + k * 0x1_0000_0000) == Wrap32(n)
  {
    var m := n + 0x8000_0000;
    DivIs(m + k * 0x1_0000_0000, 0x1_0000_0000, m / 0x1_0000_0000 + k, m % 0x1_0000_0000);
  }

  /** One more decimal digit. */
  lemma WrapDigit(n: int, d: int)
    ensures Wrap32(Wrap32(n) * 10 + d) == Wrap32(n * 10 + d)
  {
    var q := (n + 0x8000_0000) / 0x1_0000_0000;
    assert Wrap32(n) * 10 + d == n * 10 + d + (-10 * q) * 0x1_0000_0000;
    WrapPeriod(n * 10 + d, -10 * q);
  }

  lemma WrapNegates(n: int)
    ensures Wrap32(-Wrap32(n)) == Wrap32(-n)
  {
    var q := (n + 0x8000_0000) / 0x1_0000_0000;
    assert -Wrap32(n) == -n + q * 0x1_0000_0000;
    WrapPeriod(-n, q);
  }

  /** Division that rounds towards zero. */
  function Quotient(n: int, r: int): int
    requires r > 0
  {
    if n >= 0 then n / r else -(-n / r)
  }

  lemma DivIs(n: int, r: int, q: int, m: int)
    requires 0 <= m < r && n == q * r + m
    ensures n / r == q && n % r == m
  {
    var d := q - n / r;
    assert d * r == n % r - m;
    Multiple(d, r);
  }

  lemma Multiple(d: int, r: int)
    requires r > 0
    ensures d >= 1 ==> d * r >= r
    ensures d <= -1 ==> d * r <= -r
  {
  }

  lemma DivAdd(x: int, y: int, r: int)
    requires r > 0
    ensures (x + y) / r == x / r + y / r + if x % r + y % r < r then 0 else 1
  {
    var q, m := x / r + y / r, x % r + y % r;
    assert x + y == q * r + m;
    if m < r {
      DivIs(x + y, r, q, m);
    } else {
      assert (q + 1) * r == q * r + r;
      DivIs(x + y, r, q + 1, m - r);
    }
  }

  lemma DivMono(x: int, y: int, r: int)
    requires r > 0 && x <= y
    ensures x / r <= y / r
  {
    DivAdd(x, y - x, r);
    Multiple((y - x) / r, r);
  }
}
