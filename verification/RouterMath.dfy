/** The router's pure arithmetic (contracts/koul_router/src/lib.rs:347-423), with every overflow it can meet. */
module RouterMath {
  import opened MachineInt

  const RAY: int := 1_000_000_000_000_000_000_000_000_000
  const BPS_RAY: int := RAY / 10_000
  /** 0.01 USDC: every amount sent to the controller is snapped to it. */
  const GRAIN: int := 100_000
  /** 1 USDC: smaller moves are ignored. */
  const MIN_MOVE: int := 10_000_000
  const PRICE_ONE: int := 100_000_000_000_000

  datatype Amount = All | Percent(bps: nat) | Fixed(value: int)

  datatype Cmp = Below | AtOrAbove

  function FloorGrain(x: int): int {
    if x <= 0 then 0 else x - x % GRAIN
  }

  function CeilGrain(x: int): Checked<int> {
    if x <= 0 then Ok(0)
    else if x % GRAIN == 0 then Ok(x)
    else Add(x - x % GRAIN, GRAIN)
  }

  predicate OnGrain(x: int) {
    x >= 0 && x % GRAIN == 0
  }

  predicate Holds(cmp: Cmp, value: int, level: int) {
    match cmp
    case Below => value < level
    case AtOrAbove => value >= level
  }

  predicate Ready(lastFired: nat, now: nat, cooldown: nat) {
    lastFired == 0 || SaturatingSub(now, lastFired) >= cooldown
  }

  predicate IsStale(now: nat, ts: nat, maxAge: nat) {
    SaturatingSub(now, ts) > maxAge
  }

  // ---- What can leave a hub ----

  /** The utilisation ceiling only binds for a hub with debt and a ceiling strictly between 0 and 100%. */
  predicate CeilingActive(borrowed: int, maxUtilization: int) {
    borrowed > 0 && 0 < maxUtilization < RAY
  }

  function UtilisationCap(cash: int, supplied: int, borrowed: int, maxUtilization: int): Checked<int> {
    if borrowed <= 0 || maxUtilization >= RAY || maxUtilization <= 0 then Ok(cash)
    else
      var scaled :- Mul(borrowed, RAY);
      var needed :- Add(scaled / maxUtilization, 1);
      Sub(supplied, needed)
  }

  function Withdrawable(collateral: int, cash: int, supplied: int, borrowed: int, maxUtilization: int): Checked<int> {
    var utilCap :- UtilisationCap(cash, supplied, borrowed, maxUtilization);
    var cap :- Sub(FloorGrain(if utilCap < cash then utilCap else cash), GRAIN);
    var c := FloorGrain(collateral);
    Ok(if c < cap then c else if cap > 0 then cap else 0)
  }

  /** The pool's own rules for letting `w` leave: enough cash, and `borrowed / (supplied - w)` at most the ceiling. */
  predicate PoolAllows(w: int, cash: int, supplied: int, borrowed: int, maxUtilization: int) {
    && w <= cash
    && (CeilingActive(borrowed, maxUtilization) ==> borrowed * RAY <= maxUtilization * (supplied - w))
  }

  lemma FloorGrainIs(x: int)
    ensures OnGrain(FloorGrain(x)) && FloorGrain(x) <= (if x > 0 then x else 0) && x < FloorGrain(x) + GRAIN
  {
    if x > 0 {
      assert x == x / GRAIN * GRAIN + x % GRAIN;
      assert x - x % GRAIN == x / GRAIN * GRAIN;
    }
  }

  /** A snapped amount is unchanged by snapping it again: what the controller echoes back is what was planned. */
  lemma SnappedStays(x: int)
    requires OnGrain(x)
    ensures FloorGrain(x) == x
  {
  }

  lemma GrainDifference(x: int)
    requires OnGrain(x)
    ensures (x - GRAIN) % GRAIN == 0
  {
    assert x == x / GRAIN * GRAIN;
    assert x - GRAIN == (x / GRAIN - 1) * GRAIN;
  }

  lemma UtilisationCapIs(cash: int, supplied: int, borrowed: int, maxUtilization: int)
    requires CeilingActive(borrowed, maxUtilization)
    requires UtilisationCap(cash, supplied, borrowed, maxUtilization).Ok?
    ensures var cap := UtilisationCap(cash, supplied, borrowed, maxUtilization).value;
            && borrowed * RAY < maxUtilization * (supplied - cap)
            && maxUtilization * (supplied - cap - 1) <= borrowed * RAY
  {
    DivBounds(borrowed * RAY, maxUtilization);
  }

  /** Sound: whatever `withdrawable` offers is snapped, within the position, and allowed by the pool. */
  lemma WithdrawableSound(collateral: int, cash: int, supplied: int, borrowed: int, maxUtilization: int)
    requires Withdrawable(collateral, cash, supplied, borrowed, maxUtilization).Ok?
    ensures var w := Withdrawable(collateral, cash, supplied, borrowed, maxUtilization).value;
            && OnGrain(w)
            && w <= (if collateral > 0 then collateral else 0)
            && (w > 0 ==> PoolAllows(w, cash, supplied, borrowed, maxUtilization))
  {
    var w := Withdrawable(collateral, cash, supplied, borrowed, maxUtilization).value;
    var utilCap := UtilisationCap(cash, supplied, borrowed, maxUtilization).value;
    var least := if utilCap < cash then utilCap else cash;
    FloorGrainIs(collateral);
    FloorGrainIs(least);
    GrainDifference(FloorGrain(least));
    if w > 0 && CeilingActive(borrowed, maxUtilization) {
      UtilisationCapIs(cash, supplied, borrowed, maxUtilization);
      MulMonotone(maxUtilization, supplied - utilCap, supplied - w);
    }
  }

  /** Nearly optimal: nothing the position and the pool allow exceeds it by more than two grains. */
  lemma WithdrawableNearlyOptimal(collateral: int, cash: int, supplied: int, borrowed: int, maxUtilization: int, other: int)
    requires Withdrawable(collateral, cash, supplied, borrowed, maxUtilization).Ok?
    requires other <= collateral && PoolAllows(other, cash, supplied, borrowed, maxUtilization)
    ensures other <= Withdrawable(collateral, cash, supplied, borrowed, maxUtilization).value + 2 * GRAIN
  {
    var utilCap := UtilisationCap(cash, supplied, borrowed, maxUtilization).value;
    FloorGrainIs(collateral);
    FloorGrainIs(if utilCap < cash then utilCap else cash);
    if CeilingActive(borrowed, maxUtilization) {
      UtilisationCapIs(cash, supplied, borrowed, maxUtilization);
      MulCancel(maxUtilization, supplied - utilCap - 1, supplied - other);
    }
  }

  lemma GrainsUnder(n: int, x: int)
    requires n > 0 && n % GRAIN == 0
    ensures n <= FloorGrain(x) <==> n <= x
  {
    if n <= x {
      assert n == n / GRAIN * GRAIN;
      assert x == x / GRAIN * GRAIN + x % GRAIN;
      if FloorGrain(x) < n {
        MulMonotone(GRAIN, x / GRAIN + 1, n / GRAIN);
      }
    } else {
      FloorGrainIs(x);
    }
  }

  lemma UnderUtilisationCap(n: int, cash: int, supplied: int, borrowed: int, maxUtilization: int)
    requires CeilingActive(borrowed, maxUtilization) && UtilisationCap(cash, supplied, borrowed, maxUtilization).Ok?
    ensures n <= UtilisationCap(cash, supplied, borrowed, maxUtilization).value <==> borrowed * RAY < maxUtilization * (supplied - n)
  {
    var cap := UtilisationCap(cash, supplied, borrowed, maxUtilization).value;
    UtilisationCapIs(cash, supplied, borrowed, maxUtilization);
    if n <= cap {
      MulMonotone(maxUtilization, supplied - cap, supplied - n);
    } else {
      MulMonotone(maxUtilization, supplied - n, supplied - cap - 1);
    }
  }

  /**
    * Exactly how much: the largest whole number of grains within the position that the pool would still allow with one grain
    * more, and strictly under its ceiling.
    */
  lemma WithdrawableIsLargest(collateral: int, cash: int, supplied: int, borrowed: int, maxUtilization: int, n: int)
    requires Withdrawable(collateral, cash, supplied, borrowed, maxUtilization).Ok? && n > 0 && n % 100_000 == 0
    ensures n <= Withdrawable(collateral, cash, supplied, borrowed, maxUtilization).value
       <==> && n <= collateral && n + 100_000 <= cash
            && (borrowed > 0 && 0 < maxUtilization < 1_000_000_000_000_000_000_000_000_000 ==>
                  borrowed * 1_000_000_000_000_000_000_000_000_000 < maxUtilization * (supplied - (n + 100_000)))
  {
    var utilCap := UtilisationCap(cash, supplied, borrowed, maxUtilization).value;
    GrainsUnder(n, collateral);
    GrainsUnder(n + GRAIN, if utilCap < cash then utilCap else cash);
    if CeilingActive(borrowed, maxUtilization) {
      UnderUtilisationCap(n + GRAIN, cash, supplied, borrowed, maxUtilization);
    }
  }

  /**
    * The one way it can panic: under an active ceiling `borrowed * RAY` leaves i128 exactly when the hub's debt is above
    * 17014.1183460 USDC.
    */
  lemma WithdrawablePanicsExactly(collateral: int, cash: int, supplied: int, borrowed: int, maxUtilization: int)
    requires FitsI128(cash) && 0 <= supplied <= I128_MAX
    ensures Withdrawable(collateral, cash, supplied, borrowed, maxUtilization).Panic?
       <==> CeilingActive(borrowed, maxUtilization) && borrowed > 170_141_183_460
    ensures I128_MAX / RAY == 170_141_183_460
  {
    var utilCap := UtilisationCap(cash, supplied, borrowed, maxUtilization);
    if CeilingActive(borrowed, maxUtilization) && borrowed <= 170_141_183_460 {
      var scaled := borrowed * RAY;
      DivBounds(scaled, maxUtilization);
      DivNonNegative(scaled, maxUtilization);
      MulMonotone(scaled / maxUtilization, 1, maxUtilization);
    }
    if utilCap.Ok? {
      FloorGrainIs(if utilCap.value < cash then utilCap.value else cash);
    }
  }

  // ---- Amounts ----

  /** What an `Amount` asks of a base, before snapping. */
  function Want(amount: Amount, base: int): Checked<int> {
    match amount
    case All => Ok(base)
    case Percent(bps) =>
      var whole :- Mul(TruncDiv(base, 10_000), bps);
      var rest :- Mul(TruncRem(base, 10_000), bps);
      Add(whole, TruncDiv(rest, 10_000))
    case Fixed(x) => Ok(if x < base then x else base)
  }

  function Resolve(amount: Amount, base: int): Checked<int> {
    var want :- Want(amount, base);
    Ok(FloorGrain(if want < base then want else base))
  }

  predicate AmountOk(a: Amount) {
    match a
    case All => true
    case Percent(bps) => 1 <= bps <= 10_000
    case Fixed(x) => x >= MIN_MOVE
  }

  predicate SwapAmountOk(a: Amount) {
    match a
    case Fixed(x) => x > 0
    case _ => AmountOk(a)
  }

  /** The two-part percentage never overflows for an accepted amount and is the exact floor of the fraction. */
  lemma WantIsExact(amount: Amount, base: int)
    requires SwapAmountOk(amount) && 0 <= base <= I128_MAX
    ensures Want(amount, base) == Ok(match amount
                                     case All => base
                                     case Percent(bps) => base * bps / 10_000
                                     case Fixed(x) => if x < base then x else base)
    ensures 0 <= Want(amount, base).value <= base
  {
    match amount
    case All =>
    case Fixed(_) =>
    case Percent(bps) =>
      SplitProduct(base, bps, 10_000);
      MulMonotone(base, bps, 10_000);
      DivMonotone(base * bps, base * 10_000, 10_000);
      DivNonNegative(base * bps, 10_000);
      MulMonotone(base % 10_000, bps, 10_000);
      DivNonNegative(base % 10_000 * bps, 10_000);
  }

  /** A resolved amount is a whole number of grains within its base, and less than a grain under what was asked. */
  lemma ResolveIs(amount: Amount, base: int)
    requires SwapAmountOk(amount) && 0 <= base <= I128_MAX
    ensures Resolve(amount, base).Ok?
    ensures var got := Resolve(amount, base).value;
            OnGrain(got) && got <= Want(amount, base).value < got + GRAIN && got <= base
  {
    WantIsExact(amount, base);
    FloorGrainIs(Want(amount, base).value);
  }

  /** What a repayment works from: the debt plus a grain, rounded up to the grain; nothing when there is no debt. */
  function DebtBase(debt: int): Checked<int> {
    if debt <= 0 then Ok(0)
    else
      var padded :- Add(debt, GRAIN);
      CeilGrain(padded)
  }

  /** A repayment of the whole base clears the debt and overshoots it by at least one grain and less than two. */
  lemma DebtBaseCovers(debt: int)
    requires 0 < debt <= I128_MAX - 2 * GRAIN
    ensures DebtBase(debt).Ok?
    ensures var base := DebtBase(debt).value;
            OnGrain(base) && debt + GRAIN <= base < debt + 2 * GRAIN
  {
    var x := debt + GRAIN;
    FloorGrainIs(x);
    if x % GRAIN != 0 {
      assert x - x % GRAIN == x / GRAIN * GRAIN;
      assert x - x % GRAIN + GRAIN == (x / GRAIN + 1) * GRAIN;
    }
  }

  /** It only fails for a debt within two grains of the largest amount there is. */
  lemma DebtBasePanicsExactly(debt: int)
    requires 0 <= debt <= I128_MAX
    ensures DebtBase(debt).Panic? <==> debt > I128_MAX - I128_MAX % GRAIN - GRAIN
    ensures DebtBase(debt).Panic? ==> DebtBase(debt).reason == Overflow
    ensures DebtBase(debt).Ok? ==> 0 <= DebtBase(debt).value <= I128_MAX
  {
    var most, x := I128_MAX / GRAIN, debt + GRAIN;
    assert x == x / GRAIN * GRAIN + x % GRAIN;
    assert I128_MAX == most * GRAIN + I128_MAX % GRAIN;
    assert x > most * GRAIN <==> x - x % GRAIN + (if x % GRAIN == 0 then 0 else GRAIN) > most * GRAIN;
    assert (x / GRAIN + 1) * GRAIN == x - x % GRAIN + GRAIN;
  }

  // ---- Prices ----

  function Pow10(n: nat): int {
    if n == 0 then 1 else 10 * Pow10(n - 1)
  }

  /** `10i128.pow(n)`: 10^38 is the last power that fits. */
  function CheckedPow10(n: nat): Checked<int> {
    if n <= 38 then Ok(Pow10(n)) else Panic(Overflow)
  }

  lemma {:induction false} Pow10Grows(m: nat, n: nat)
    requires m <= n
    ensures Pow10(m) <= Pow10(n)
  {
    if m < n {
      Pow10Grows(m, n - 1);
      Pow10Positive(n - 1);
    }
  }

  lemma Pow10At38()
    ensures Pow10(38) == 100_000_000_000_000_000_000_000_000_000_000_000_000
  {
    assert Pow10(10) == 10_000_000_000;
    assert Pow10(20) == 100_000_000_000_000_000_000;
    assert Pow10(30) == 1_000_000_000_000_000_000_000_000_000_000;
  }

  /** A power of ten is refused exactly when it does not fit. */
  lemma CheckedPow10Fits(n: nat)
    ensures CheckedPow10(n) == if Pow10(n) <= I128_MAX then Ok(Pow10(n)) else Panic(Overflow)
  {
    Pow10At38();
    if n <= 38 {
      Pow10Grows(n, 38);
    } else {
      Pow10Grows(39, n);
    }
  }

  lemma {:induction false} Pow10Positive(n: nat)
    ensures Pow10(n) >= 1
  {
    if n > 0 {
      Pow10Positive(n - 1);
    }
  }

  function UsdValue(amount: int, decimals: nat, price: int): Checked<int> {
    var p :- CheckedPow10(decimals);
    Pow10Positive(decimals);
    var whole :- Mul(TruncDiv(amount, p), price);
    var rest :- Mul(TruncRem(amount, p), price);
    Add(whole, TruncDiv(rest, p))
  }

  /** The split evaluation loses nothing: it is the floor of `amount * price / 10^decimals`. */
  lemma UsdValueIsExact(amount: int, decimals: nat, price: int)
    requires amount >= 0 && price >= 0
    requires UsdValue(amount, decimals, price).Ok?
    ensures Pow10(decimals) > 0
    ensures UsdValue(amount, decimals, price).value == amount * price / Pow10(decimals)
  {
    Pow10Positive(decimals);
    SplitProduct(amount, price, Pow10(decimals));
  }

  /** It fails on a scale past 10^38, on a remainder too big to price, or on a value past i128; never otherwise. */
  lemma UsdValuePanicsExactly(amount: int, decimals: nat, price: int)
    requires amount >= 0 && price >= 0
    ensures Pow10(decimals) > 0
    ensures UsdValue(amount, decimals, price).Panic?
       <==> decimals > 38 || amount % Pow10(decimals) * price > I128_MAX || amount * price / Pow10(decimals) > I128_MAX
    ensures UsdValue(amount, decimals, price).Panic? ==> UsdValue(amount, decimals, price).reason == Overflow
  {
    Pow10Positive(decimals);
    SplitProduct(amount, price, Pow10(decimals));
    DivNonNegative(amount % Pow10(decimals) * price, Pow10(decimals));
  }

  function SwapFloor(amountIn: int, decIn: nat, priceIn: int, decOut: nat, priceOut: int, slippageBps: nat): Checked<int> {
    if priceOut <= 0 then Ok(0)
    else
      var usd :- UsdValue(amountIn, decIn, priceIn);
      var p :- CheckedPow10(decOut);
      var scaled :- Mul(usd, p);
      LessSlippage(TruncDiv(scaled, priceOut), slippageBps)
  }

  function LessSlippage(out: int, slippageBps: nat): Checked<int> {
    var keep :- Sub(10_000, slippageBps);
    var whole :- Mul(TruncDiv(out, 10_000), keep);
    var rest :- Mul(TruncRem(out, 10_000), keep);
    Add(whole, TruncDiv(rest, 10_000))
  }

  ghost function FloorChain(product: int, d: int, p: int, priceOut: int, keep: int): int
    requires d > 0 && priceOut > 0
  {
    FloorTail(product / d, p, priceOut, keep)
  }

  ghost function FloorTail(n: int, p: int, priceOut: int, keep: int): int
    requires priceOut > 0
  {
    n * p / priceOut * keep / 10_000
  }

  lemma LessSlippageIsFloor(out: int, slippageBps: nat)
    requires out >= 0 && slippageBps <= 10_000 && LessSlippage(out, slippageBps).Ok?
    ensures LessSlippage(out, slippageBps).value == out * (10_000 - slippageBps) / 10_000
  {
    SplitProduct(out, 10_000 - slippageBps, 10_000);
  }

  /** The same floor as three nested integer divisions, without the overflow-avoiding split. */
  lemma SwapFloorIsNestedFloors(amountIn: int, decIn: nat, priceIn: int, decOut: nat, priceOut: int, slippageBps: nat)
    requires amountIn >= 0 && priceIn >= 0 && priceOut > 0 && slippageBps <= 10_000
    requires SwapFloor(amountIn, decIn, priceIn, decOut, priceOut, slippageBps).Ok?
    ensures Pow10(decIn) > 0 && Pow10(decOut) > 0
    ensures SwapFloor(amountIn, decIn, priceIn, decOut, priceOut, slippageBps).value
         == FloorChain(amountIn * priceIn, Pow10(decIn), Pow10(decOut), priceOut, 10_000 - slippageBps)
  {
    Pow10Positive(decIn);
    Pow10Positive(decOut);
    UsdValueIsExact(amountIn, decIn, priceIn);
    var usd := amountIn * priceIn / Pow10(decIn);
    MulMonotone(priceIn, 0, amountIn);
    DivNonNegative(amountIn * priceIn, Pow10(decIn));
    MulMonotone(Pow10(decOut), 0, usd);
    DivNonNegative(usd * Pow10(decOut), priceOut);
    LessSlippageIsFloor(usd * Pow10(decOut) / priceOut, slippageBps);
  }

  /** Beyond the input's value, only its product with the output's scale can overflow: slippage never adds to it. */
  lemma SwapFloorPanicsExactly(amountIn: int, decIn: nat, priceIn: int, decOut: nat, priceOut: int, slippageBps: nat)
    requires amountIn >= 0 && priceIn >= 0 && priceOut > 0 && slippageBps <= 10_000
    requires UsdValue(amountIn, decIn, priceIn).Ok?
    ensures Pow10(decIn) > 0 && Pow10(decOut) > 0
    ensures SwapFloor(amountIn, decIn, priceIn, decOut, priceOut, slippageBps).Panic?
       <==> decOut > 38 || amountIn * priceIn / Pow10(decIn) * Pow10(decOut) > I128_MAX
    ensures SwapFloor(amountIn, decIn, priceIn, decOut, priceOut, slippageBps).Panic?
            ==> SwapFloor(amountIn, decIn, priceIn, decOut, priceOut, slippageBps).reason == Overflow
  {
    Pow10Positive(decIn);
    Pow10Positive(decOut);
    UsdValueIsExact(amountIn, decIn, priceIn);
    MulMonotone(priceIn, 0, amountIn);
    DivNonNegative(amountIn * priceIn, Pow10(decIn));
    var usd := amountIn * priceIn / Pow10(decIn);
    MulMonotone(Pow10(decOut), 0, usd);
    if decOut <= 38 && usd * Pow10(decOut) <= I128_MAX {
      var scaled := usd * Pow10(decOut);
      DivNonNegative(scaled, priceOut);
      DivBounds(scaled, priceOut);
      MulMonotone(scaled / priceOut, 1, priceOut);
      SlippageFits(scaled / priceOut, slippageBps);
    }
  }

  lemma SlippageFits(out: int, slippageBps: nat)
    requires 0 <= out <= I128_MAX && slippageBps <= 10_000
    ensures LessSlippage(out, slippageBps).Ok?
  {
    var keep := 10_000 - slippageBps;
    MulMonotone(out / 10_000, 0, keep);
    MulMonotone(out / 10_000, keep, 10_000);
    MulMonotone(out % 10_000, 0, keep);
    MulMonotone(out % 10_000, keep, 10_000);
    DivNonNegative(out % 10_000 * keep, 10_000);
    DivMonotone(out % 10_000 * keep, out % 10_000 * 10_000, 10_000);
  }

  /**
    * The oracle-implied output less slippage, without rounding: `product` is input times price in, `d` and `p` the two
    * tokens' decimal scales, `keep` what the slippage leaves of 10000.
    */
  ghost function ExactChain(product: int, d: int, p: int, priceOut: int, keep: int): real
    requires d > 0 && priceOut > 0
  {
    ExactTail(product as real / d as real, p, priceOut, keep)
  }

  ghost function ExactTail(x: real, p: int, priceOut: int, keep: int): real
    requires priceOut > 0
  {
    x * p as real / priceOut as real * keep as real / 10_000.0
  }

  lemma RealScale(x: real, y: real, k: real)
    requires x <= y && k >= 0.0
    ensures x * k <= y * k
    ensures x < y && k > 0.0 ==> x * k < y * k
  {
    assert (y - x) * k == y * k - x * k;
  }

  lemma RealDivide(x: real, y: real, k: real)
    requires x <= y && k > 0.0
    ensures x / k <= y / k
    ensures x < y ==> x / k < y / k
  {
    var a, b := x / k, y / k;
    assert a * k == x && b * k == y;
    if a > b {
      RealScale(b, a, k);
    }
  }

  lemma RealDivideProduct(q: real, k: real)
    requires k > 0.0
    ensures q * k / k == q
  {
  }

  lemma FloorIsWithinOne(x: int, y: int)
    requires y > 0
    ensures (x / y) as real <= x as real / y as real < (x / y) as real + 1.0
  {
    DivBounds(x, y);
    var q, b := (x / y) as real, y as real;
    assert q * b == (x / y * y) as real;
    assert (q + 1.0) * b == ((x / y + 1) * y) as real;
    RealDivide(q * b, x as real, b);
    RealDivide(x as real, (q + 1.0) * b, b);
    RealDivideProduct(q, b);
    RealDivideProduct(q + 1.0, b);
  }

  lemma RealDivideSum(x: real, y: real, k: real)
    requires k > 0.0
    ensures (x + y) / k == x / k + y / k
  {
    assert (x / k + y / k) * k == x + y;
    RealDivideProduct(x / k + y / k, k);
  }

  lemma FloorNearReal(n: int, d: int, x: real, gap: real)
    requires d > 0
    requires n as real <= x < n as real + gap
    ensures (n / d) as real <= x / d as real < (n / d) as real + 1.0 + gap / d as real
  {
    FloorIsWithinOne(n, d);
    RealDivide(n as real, x, d as real);
    RealDivide(x, n as real + gap, d as real);
    RealDivideSum(n as real, gap, d as real);
  }

  lemma ScaleNear(n: int, x: real, gap: real, k: int)
    requires k >= 0 && n as real <= x < n as real + gap
    ensures (n * k) as real <= x * k as real <= (n * k) as real + gap * k as real
    ensures k > 0 ==> x * k as real < (n * k) as real + gap * k as real
  {
    assert (n * k) as real == n as real * k as real;
    RealScale(n as real, x, k as real);
    RealScale(x, n as real + gap, k as real);
    assert (n as real + gap) * k as real == n as real * k as real + gap * k as real;
  }

  /** Two roundings down in a row lose less than one price step and two units. */
  lemma TwoFloors(x: real, n: int, p: int, priceOut: int, keep: int)
    requires p > 0 && priceOut > 0 && 0 <= keep <= 10_000
    requires n as real <= x < n as real + 1.0
    ensures FloorTail(n, p, priceOut, keep) as real <= ExactTail(x, p, priceOut, keep)
    ensures ExactTail(x, p, priceOut, keep) < FloorTail(n, p, priceOut, keep) as real + p as real / priceOut as real + 2.0
  {
    ScaleNear(n, x, 1.0, p);
    FloorNearReal(n * p, priceOut, x * p as real, p as real);
    RealDivide(0.0, p as real, priceOut as real);
    LastFloor(x * p as real / priceOut as real, n * p / priceOut, p as real / priceOut as real + 1.0, keep);
  }

  lemma LastFloor(y: real, out: int, slack: real, keep: int)
    requires 0 <= keep <= 10_000 && slack > 0.0
    requires out as real <= y < out as real + slack
    ensures (out * keep / 10_000) as real <= y * keep as real / 10_000.0 < (out * keep / 10_000) as real + slack + 1.0
  {
    ScaleNear(out, y, slack, keep);
    FloorIsWithinOne(out * keep, 10_000);
    RealScale(keep as real, 10_000.0, slack);
    var n, z, g := (out * keep) as real, y * keep as real, slack * keep as real;
    RealDivide(n, z, 10_000.0);
    RealDivide(z, n + g, 10_000.0);
    RealDivideSum(n, g, 10_000.0);
    RealDivide(g, 10_000.0 * slack, 10_000.0);
    RealDivideProduct(slack, 10_000.0);
  }

  lemma ThreeFloors(product: int, d: int, p: int, priceOut: int, keep: int)
    requires d > 0 && p > 0 && priceOut > 0 && 0 <= keep <= 10_000
    ensures FloorChain(product, d, p, priceOut, keep) as real <= ExactChain(product, d, p, priceOut, keep)
    ensures ExactChain(product, d, p, priceOut, keep) < FloorChain(product, d, p, priceOut, keep) as real + p as real / priceOut as real + 2.0
  {
    FloorIsWithinOne(product, d);
    TwoFloors(product as real / d as real, product / d, p, priceOut, keep);
  }

  /** Never above the oracle's output less the slippage, and under it by less than one output unit's price step plus two. */
  lemma SwapFloorIsTight(amountIn: int, decIn: nat, priceIn: int, decOut: nat, priceOut: int, slippageBps: nat)
    requires amountIn >= 0 && priceIn >= 0 && priceOut > 0 && slippageBps <= 10_000
    requires SwapFloor(amountIn, decIn, priceIn, decOut, priceOut, slippageBps).Ok?
    ensures Pow10(decIn) > 0
    ensures var floor := SwapFloor(amountIn, decIn, priceIn, decOut, priceOut, slippageBps).value as real;
            var exact := ExactChain(amountIn * priceIn, Pow10(decIn), Pow10(decOut), priceOut, 10_000 - slippageBps);
            floor <= exact < floor + Pow10(decOut) as real / priceOut as real + 2.0
  {
    SwapFloorIsNestedFloors(amountIn, decIn, priceIn, decOut, priceOut, slippageBps);
    ThreeFloors(amountIn * priceIn, Pow10(decIn), Pow10(decOut), priceOut, 10_000 - slippageBps);
  }

  /** A bigger input never lowers the floor; a bigger slippage never raises it. */
  lemma SwapFloorMonotone(a: int, a': int, decIn: nat, priceIn: int, decOut: nat, priceOut: int, slip: nat, slip': nat)
    requires 0 <= a <= a' && priceIn >= 0 && priceOut > 0 && slip' <= slip <= 10_000
    requires SwapFloor(a, decIn, priceIn, decOut, priceOut, slip).Ok?
    requires SwapFloor(a', decIn, priceIn, decOut, priceOut, slip').Ok?
    ensures SwapFloor(a, decIn, priceIn, decOut, priceOut, slip).value <= SwapFloor(a', decIn, priceIn, decOut, priceOut, slip').value
  {
    SwapFloorIsNestedFloors(a, decIn, priceIn, decOut, priceOut, slip);
    SwapFloorIsNestedFloors(a', decIn, priceIn, decOut, priceOut, slip');
    MulMonotone(priceIn, 0, a);
    MulMonotone(priceIn, a, a');
    var usd, usd' := a * priceIn / Pow10(decIn), a' * priceIn / Pow10(decIn);
    DivMonotone(a * priceIn, a' * priceIn, Pow10(decIn));
    DivNonNegative(a * priceIn, Pow10(decIn));
    RestOfFloorMonotone(usd, usd', Pow10(decOut), priceOut, 10_000 - slip, 10_000 - slip');
  }

  lemma RestOfFloorMonotone(usd: int, usd': int, p: int, priceOut: int, keep: int, keep': int)
    requires 0 <= usd <= usd' && p > 0 && priceOut > 0 && 0 <= keep <= keep'
    ensures usd * p / priceOut * keep / 10_000 <= usd' * p / priceOut * keep' / 10_000
  {
    MulMonotone(p, 0, usd);
    MulMonotone(p, usd, usd');
    var out, out' := usd * p / priceOut, usd' * p / priceOut;
    DivMonotone(usd * p, usd' * p, priceOut);
    DivNonNegative(usd * p, priceOut);
    MulMonotone(keep, out, out');
    MulMonotone(out', keep, keep');
    DivMonotone(out * keep, out' * keep', 10_000);
  }
}
