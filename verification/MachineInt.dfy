/**
  * The integers of the contracts. The release profile builds with overflow checks on and panics abort (Cargo.toml:10-17),
  * so an i128 operation whose exact result does not fit panics, and a panic reverts the whole transaction.
  */
module MachineInt {

  const I128_MAX: int := 0x7FFF_FFFF_FFFF_FFFF_FFFF_FFFF_FFFF_FFFF
  const I128_MIN: int := -I128_MAX - 1
  const U32_MAX: int := 0xFFFF_FFFF
  const U64_MAX: int := 0xFFFF_FFFF_FFFF_FFFF

  predicate FitsI128(x: int) {
    I128_MIN <= x <= I128_MAX
  }

  /** Why a contract call reverted: an arithmetic overflow, a refusal by a called contract, or one of the contracts' own errors. */
  datatype Reason =
    | Overflow
    | Refused
    | Unauthorized
    | NoAutopilot
    | BadAutopilot
    | NothingMoved
    | UnknownToken
    | RouteRequired
    | RouteMismatch
    | BelowFloor
    | NotConfigured

  datatype Checked<+T> = Ok(value: T) | Panic(reason: Reason) {
    predicate IsFailure() {
      Panic?
    }

    function PropagateFailure<U>(): Checked<U>
      requires Panic?
    {
      Panic(reason)
    }

    function Extract(): T
      requires Ok?
    {
      value
    }
  }

  function Fit(x: int): Checked<int> {
    if FitsI128(x) then Ok(x) else Panic(Overflow)
  }

  function Add(x: int, y: int): Checked<int> {
    Fit(x + y)
  }

  function Sub(x: int, y: int): Checked<int> {
    Fit(x - y)
  }

  function Mul(x: int, y: int): Checked<int> {
    Fit(x * y)
  }

  /** Rust's `/` on i128 for a positive divisor: towards zero. */
  function TruncDiv(x: int, y: int): int
    requires y > 0
  {
    if x >= 0 then x / y else -((-x) / y)
  }

  /** Rust's `%` on i128 for a positive divisor: the sign of the dividend. */
  function TruncRem(x: int, y: int): int
    requires y > 0
  {
    if x >= 0 then x % y else -((-x) % y)
  }

  /** Rust's `saturating_sub` on unsigned values. */
  function SaturatingSub(x: nat, y: nat): nat {
    if x < y then 0 else x - y
  }

  lemma MulMonotone(k: int, x: int, y: int)
    requires k >= 0 && x <= y
    ensures k * x <= k * y
  {
  }

  /** Integer division bracketed by products, the form every rounding proof here needs. */
  lemma DivBounds(x: int, y: int)
    requires y > 0
    ensures x / y * y <= x < (x / y + 1) * y
  {
    assert x == x / y * y + x % y;
    assert (x / y + 1) * y == x / y * y + y;
  }

  lemma MulCancel(k: int, x: int, y: int)
    requires k > 0 && k * x <= k * y
    ensures x <= y
  {
    if x > y {
      MulMonotone(k, y + 1, x);
    }
  }

  /** `q` is the floor of `x / y` when `x` lies between `q` and `q + 1` times `y`. */
  lemma DivUnique(x: int, y: int, q: int)
    requires y > 0 && q * y <= x < (q + 1) * y
    ensures x / y == q
  {
    DivBounds(x, y);
    var d := x / y;
    assert y * d <= x < y * (d + 1);
    assert y * q <= x < y * (q + 1);
    if d >= q + 1 {
      MulMonotone(y, q + 1, d);
    }
    if q >= d + 1 {
      MulMonotone(y, d + 1, q);
    }
  }

  /** The overflow-avoiding product of the contracts: multiplying quotient and remainder apart loses nothing. */
  lemma SplitProduct(x: int, k: int, m: int)
    requires x >= 0 && k >= 0 && m > 0
    ensures x / m * k + x % m * k / m == x * k / m
    ensures x % m * k >= 0 && x * k >= 0 && x / m * k >= 0
  {
    var q, r := x / m, x % m;
    DivBounds(x, m);
    assert q >= 0 by {
      if q <= -1 {
        MulMonotone(m, q + 1, 0);
      }
    }
    MulMonotone(k, 0, r);
    MulMonotone(k, 0, q);
    MulMonotone(k, 0, x);
    Expand(q, m, r, k);
    DivBounds(r * k, m);
    var d := r * k / m;
    assert (q * k + d) * m == q * k * m + d * m;
    assert (q * k + d + 1) * m == q * k * m + (d + 1) * m;
    DivUnique(x * k, m, q * k + d);
  }

  lemma Expand(q: int, m: int, r: int, k: int)
    ensures (q * m + r) * k == q * k * m + r * k
  {
    assert (q * m) * k == q * k * m;
  }

  lemma MulCancelStrict(k: int, x: int, y: int)
    requires k > 0 && k * x < k * y
    ensures x < y
  {
    if x >= y {
      MulMonotone(k, y, x);
    }
  }

  lemma DivMonotone(x: int, x': int, y: int)
    requires y > 0 && x <= x'
    ensures x / y <= x' / y
  {
    DivBounds(x, y);
    DivBounds(x', y);
    MulCancelStrict(y, x / y, x' / y + 1);
  }

  lemma DivNonNegative(x: int, y: int)
    requires x >= 0 && y > 0
    ensures x / y >= 0
  {
    DivMonotone(0, x, y);
  }
}
