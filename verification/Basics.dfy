/** Vocabulary shared by every component: results, addresses, exact integer division. */
module Basics {
  datatype Option<T> = None | Some(value: T)

  /** A thrown error is an `Err` carrying the source's error code. */
  datatype Result<T> = Ok(value: T) | Err(code: string)

  /** An address. Only equality matters, so lower-casing is the identity. */
  type Token = nat

  /** BigInt division truncates toward zero; Dafny's `/` is Euclidean. */
  function Trunc(a: int, b: int): (q: int)
    requires b > 0
    ensures a >= 0 ==> 0 <= q
    ensures a <= 0 ==> q <= 0
  {
    if a >= 0 then a / b else -((-a) / b)
  }

  function Max(a: int, b: int): int {
    if a >= b then a else b
  }

  function Min(a: int, b: int): int {
    if a <= b then a else b
  }

  function Pow2(n: nat): nat {
    if n == 0 then 1 else 2 * Pow2(n - 1)
  }

  /** `applySlippage` of src/lib/clmath.ts: the least output a tolerance in basis points accepts. */
  function ApplySlippage(x: int, bps: int): int {
    Trunc(x * (10_000 - bps), 10_000)
  }

  lemma FloorBounds(a: int, b: int)
    requires b > 0
    ensures (a / b) * b <= a < (a / b + 1) * b
  {
  }

  lemma MulMonotone(k: int, a: int, b: int)
    requires k >= 0 && a <= b
    ensures k * a <= k * b && a * k <= b * k
  {
  }

  /** `a / b` is the greatest multiplier of `b` that stays within `a`. */
  lemma FloorGreatest(a: int, b: int, k: int)
    requires b > 0
    ensures k * b <= a <==> k <= a / b
  {
    FloorBounds(a, b);
    if k <= a / b {
      MulMonotone(b, k, a / b);
    } else {
      MulMonotone(b, a / b + 1, k);
    }
  }

  lemma FloorIs(a: int, b: int, q: int)
    requires b > 0 && q * b <= a < (q + 1) * b
    ensures a / b == q
  {
    FloorGreatest(a, b, q);
    FloorGreatest(a, b, q + 1);
  }

  /** The floor share of `x` due to `part` out of `whole` lies within both `x` and `part`. */
  lemma ShareBounds(x: int, part: int, whole: int)
    requires 0 <= part <= whole && 0 < whole && 0 <= x
    ensures 0 <= x * part / whole <= x
    ensures x <= whole ==> x * part / whole <= part
  {
    MulMonotone(x, 0, part);
    MulMonotone(x, part, whole);
    FloorGreatest(x * part, whole, 0);
    FloorGreatest(x * part, whole, x + 1);
    assert (x + 1) * whole == x * whole + whole;
    if x <= whole {
      MulMonotone(part, x, whole);
      FloorGreatest(x * part, whole, part + 1);
      assert (part + 1) * whole == part * whole + whole;
    }
  }

  /** What a share leaves behind also fits in what the other part can give. */
  lemma ComplementBounds(x: int, part: int, whole: int)
    requires 0 <= part <= whole && 0 < whole && 0 <= x <= whole
    ensures x - x * part / whole <= whole - part
  {
    var k := x + part - whole;
    calc {
      x * part - k * whole;
      x * part - x * whole - part * whole + whole * whole;
      (whole - x) * (whole - part);
    }
    MulMonotone(whole - x, 0, whole - part);
    FloorGreatest(x * part, whole, k);
  }
}
