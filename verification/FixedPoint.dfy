/** CosmWasm numbers: Uint128 with checked arithmetic, and Decimal as a numerator over 10^18. */
module FixedPoint {
  import opened Basics

  const ONE: nat := 1_000_000_000_000_000_000
  const U128_MAX: nat := 0xFFFF_FFFF_FFFF_FFFF_FFFF_FFFF_FFFF_FFFF

  function Checked(n: nat): Result<nat> {
    if n <= U128_MAX then Ok(n) else Err(Overflow)
  }

  function CheckedSub(a: nat, b: nat): Result<nat> {
    if b <= a then Ok(a - b) else Err(Overflow)
  }

  function Min(a: nat, b: nat): nat {
    if a <= b then a else b
  }

  /** n / d as a decimal, rounded down. */
  function Ratio(n: nat, d: nat): nat
    requires d > 0
  {
    n * ONE / d
  }

  /** Decimal::from_ratio, which panics on a zero divisor or an overflowing numerator. */
  function CheckedRatio(n: nat, d: nat): Result<nat> {
    if d == 0 then Err(DivideByZero) else Checked(Ratio(n, d))
  }

  /** The decimal d times the integer n, rounded down to an integer. */
  function MulFloor(d: nat, n: nat): nat {
    d * n / ONE
  }

  /** MulFloor where the integer is first turned into a Decimal: both the operand and the product must fit. */
  function CheckedMulFloor(d: nat, n: nat): Result<nat> {
    var _ :- Checked(n * ONE);
    var _ :- Checked(d * n);
    Ok(MulFloor(d, n))
  }

  lemma DivBounds(n: nat, d: nat)
    requires d > 0
    ensures d * (n / d) <= n < d * (n / d) + d
  {
  }

  /** The floor is the largest integer below the exact quotient. */
  lemma DivIsLargest(n: nat, d: nat, q: nat)
    requires d > 0
    ensures d * q <= n <==> q <= n / d
  {
    DivBounds(n, d);
    if q <= n / d {
      MulMono(d, q, n / d);
    } else {
      MulMono(d, n / d + 1, q);
    }
  }

  lemma MulMono(a: nat, b: int, c: int)
    requires b <= c
    ensures a * b <= a * c
  {
  }

  lemma DivMono(n: nat, m: nat, d: nat)
    requires d > 0 && n <= m
    ensures n / d <= m / d
  {
    DivBounds(n, d);
    DivIsLargest(m, d, n / d);
  }

  lemma MulFloorBounds(d: nat, n: nat)
    ensures ONE * MulFloor(d, n) <= d * n < ONE * MulFloor(d, n) + ONE
  {
    DivBounds(d * n, ONE);
  }

  lemma RatioBounds(n: nat, d: nat)
    requires d > 0
    ensures d * Ratio(n, d) <= n * ONE
  {
    DivBounds(n * ONE, d);
  }

  lemma MulDivCancel(n: nat, d: nat)
    requires d > 0
    ensures n * d / d == n
  {
    DivIsLargest(n * d, d, n);
    DivIsLargest(n * d, d, n + 1);
  }

  lemma Cancel(w: nat, a: int, b: int)
    requires w > 0
    ensures w * a <= w * b ==> a <= b
  {
    if a > b {
      MulMono(w, b + 1, a);
    }
  }

  /** The part n / d of m, with both the fraction and the product rounded down: never too much, and too little by less
      than 1 + m / 10^18. */
  lemma PartBounds(n: nat, d: nat, m: nat)
    requires d > 0
    ensures d * MulFloor(Ratio(n, d), m) <= m * n
    ensures ONE * (m * n) < d * (ONE * (MulFloor(Ratio(n, d), m) + 1) + m)
  {
    var q := Ratio(n, d);
    var r := MulFloor(q, m);
    DivBounds(n * ONE, d);
    MulFloorBounds(q, m);
    PartFromAbove(n, d, m, q, r);
    PartFromBelow(n, d, m, q, r);
  }

  lemma PartFromAbove(n: nat, d: nat, m: nat, q: nat, r: nat)
    requires d * q <= n * ONE && ONE * r <= q * m
    ensures d * r <= m * n
  {
    MulMono(d, ONE * r, q * m);
    MulMono(m, d * q, n * ONE);
    assert d * (ONE * r) == ONE * (d * r) && d * (q * m) == m * (d * q) && m * (n * ONE) == ONE * (m * n);
    Cancel(ONE, d * r, m * n);
  }

  lemma PartFromBelow(n: nat, d: nat, m: nat, q: nat, r: nat)
    requires d > 0 && n * ONE < d * q + d && q * m < ONE * r + ONE
    ensures ONE * (m * n) < d * (ONE * (r + 1) + m)
  {
    MulMono(m, n * ONE, d * q + d);
    assert m * (n * ONE) == ONE * (m * n) && m * (d * q + d) == d * (q * m + m);
    MulMono(d, q * m + m + 1, ONE * r + ONE + m);
    assert d * (q * m + m + 1) == d * (q * m + m) + d;
  }
}
