/**
  * How much a plan moves, and when there is one: the amount a person asked for, of what is there, in whole cents
  * (contracts/koul_router/src/lib.rs:359-423, 666-727). Everything here is written out, without the router's own helpers.
  */
module PlanAmounts {
  import opened Basics
  import opened MachineInt
  import opened RouterMath
  import opened RouterTypes
  import opened Reads

  /** 0.01 USDC and 1 USDC. */
  const CENT: int := 100_000
  const DOLLAR: int := 10_000_000

  function Least(a: int, b: int): int {
    if a < b then a else b
  }

  /** What was asked of a base: all of it, a share in hundredths of a percent, or a fixed amount as far as it goes. */
  function Asked(amount: Amount, base: int): int {
    match amount
    case All => base
    case Percent(bps) => base * bps / 10_000
    case Fixed(x) => Least(x, base)
  }

  /** Whole cents, any fraction dropped. */
  function Cents(x: int): int {
    if x <= 0 then 0 else x / CENT * CENT
  }

  /** What a repayment of everything sends: a cent more than the debt, rounded up to whole cents. */
  function Owed(debt: int): int {
    if debt <= 0 then 0 else (debt + 2 * CENT - 1) / CENT * CENT
  }

  lemma CentsAre(x: int)
    ensures Cents(x) == FloorGrain(x)
  {
    assert x == x / GRAIN * GRAIN + x % GRAIN;
  }

  lemma OwedIs(debt: int)
    requires DebtBase(debt).Ok?
    ensures Owed(debt) == DebtBase(debt).value
  {
    if debt > 0 {
      var x := debt + GRAIN;
      var q, r := x / GRAIN, x % GRAIN;
      assert x == q * GRAIN + r;
      assert debt + 2 * CENT - 1 == q * CENT + (r + CENT - 1);
      SumOverCents(q, r + CENT - 1);
      assert x - r == q * GRAIN && x - r + GRAIN == (q + 1) * GRAIN;
    }
  }

  lemma SumOverCents(q: int, rest: int)
    requires 0 <= rest < 2 * CENT
    ensures (q * CENT + rest) / CENT == if rest < CENT then q else q + 1
  {
  }

  lemma ResolvedIs(amount: Amount, base: int)
    requires SwapAmountOk(amount) && 0 <= base <= I128_MAX
    ensures Want(amount, base) == Ok(Asked(amount, base)) && 0 <= Asked(amount, base) <= base
    ensures Resolve(amount, base) == Ok(Cents(Asked(amount, base)))
  {
    WantIsExact(amount, base);
    CentsAre(Asked(amount, base));
  }

  // ---- Prices ----

  /** A token's price as the router may use it: from a feed that is registered, positive, and no older than the feed allows. */
  predicate Priced(env: Settings, w: World, token: Address, price: int, decimals: nat) {
    && token in env.feeds && env.feeds[token].decimals == decimals && price > 0
    && match env.feeds[token].source
       case FixedPrice(p) => price == p
       case FromOracle(oracle, asset, maxAge) =>
         && (oracle, asset) in w.quotes
         && w.quotes[(oracle, asset)].price == price && w.timestamp <= w.quotes[(oracle, asset)].timestamp + maxAge
  }

  lemma PriceIsExactly(env: Settings, w: World, token: Address, price: int, decimals: nat)
    ensures Price(env, w, token) == Some((price, decimals)) <==> Priced(env, w, token, price, decimals)
  {
  }

  lemma PriceIsFound(env: Settings, w: World, token: Address)
    ensures Price(env, w, token).Some? <==> exists price, decimals :: Priced(env, w, token, price, decimals)
  {
    if Price(env, w, token).Some? {
      var (price, decimals) := Price(env, w, token).value;
      PriceIsExactly(env, w, token, price, decimals);
    }
    if price, decimals :| Priced(env, w, token, price, decimals) {
      PriceIsExactly(env, w, token, price, decimals);
    }
  }

  /**
    * A swap of `amount` makes sense at these prices: it is worth a dollar (prices have 14 decimals), and the least the router
    * will accept for it is `least` and something.
    */
  ghost predicate WorthSwapping(amount: int, priceIn: int, decIn: nat, priceOut: int, decOut: nat, slip: nat, least: int) {
    && amount > 0 && Pow10(decIn) > 0 && priceOut > 0
    && amount * priceIn >= 100_000_000_000_000 * Pow10(decIn)
    && least == FloorChain(amount * priceIn, Pow10(decIn), Pow10(decOut), priceOut, 10_000 - slip) && least > 0
  }

  ghost predicate SwapPlannedAt(env: Settings, w: World, p: Plan, slip: nat, priceIn: int, decIn: nat, priceOut: int, decOut: nat)
    requires p.Swap?
  {
    && Priced(env, w, p.tokenIn, priceIn, decIn) && Priced(env, w, p.tokenOut, priceOut, decOut)
    && WorthSwapping(p.amount, priceIn, decIn, priceOut, decOut, slip, p.minOut)
  }

  /** Exactly the swap of that amount if it makes sense at the prices of the world, and otherwise none. */
  ghost predicate SwapIs(env: Settings, w: World, plan: Option<Plan>, tokenIn: Address, tokenOut: Address, amount: int, slip: nat, hub: Option<nat>) {
    && (plan.Some? ==>
          && plan.value.Swap? && plan.value.tokenIn == tokenIn && plan.value.tokenOut == tokenOut
          && plan.value.amount == amount && plan.value.withdrawHub == hub
          && exists priceIn, decIn, priceOut, decOut :: SwapPlannedAt(env, w, plan.value, slip, priceIn, decIn, priceOut, decOut))
    && (plan.None? ==>
          forall priceIn, decIn, priceOut, decOut, least ::
            Priced(env, w, tokenIn, priceIn, decIn) && Priced(env, w, tokenOut, priceOut, decOut) ==>
              !WorthSwapping(amount, priceIn, decIn, priceOut, decOut, slip, least))
  }

  lemma WorthADollar(product: int, scale: int)
    requires scale > 0
    ensures product / scale < PRICE_ONE <==> product < 100_000_000_000_000 * scale
  {
    DivBounds(product, scale);
    if product / scale < PRICE_ONE {
      MulMonotone(scale, product / scale + 1, PRICE_ONE);
    } else {
      MulMonotone(scale, PRICE_ONE, product / scale);
    }
  }

  lemma SwapAtPrices(amount: int, decIn: nat, priceIn: int, decOut: nat, priceOut: int, slip: nat)
    requires amount > 0 && priceIn > 0 && priceOut > 0 && slip <= 10_000 && UsdValue(amount, decIn, priceIn).Ok?
    ensures Pow10(decIn) > 0
    ensures UsdValue(amount, decIn, priceIn).value < PRICE_ONE <==> amount * priceIn < 100_000_000_000_000 * Pow10(decIn)
    ensures var floor := SwapFloor(amount, decIn, priceIn, decOut, priceOut, slip);
            floor.Ok? ==> floor.value == FloorChain(amount * priceIn, Pow10(decIn), Pow10(decOut), priceOut, 10_000 - slip)
  {
    UsdValueIsExact(amount, decIn, priceIn);
    WorthADollar(amount * priceIn, Pow10(decIn));
    if SwapFloor(amount, decIn, priceIn, decOut, priceOut, slip).Ok? {
      SwapFloorIsNestedFloors(amount, decIn, priceIn, decOut, priceOut, slip);
    }
  }

  lemma SwapFound(env: Settings, w: World, tokenIn: Address, tokenOut: Address, amount: int, slip: nat, hub: Option<nat>)
    requires amount >= 0 && slip <= 10_000
    requires PlanSwap(env, w, tokenIn, tokenOut, amount, slip, hub).Ok? && PlanSwap(env, w, tokenIn, tokenOut, amount, slip, hub).value.Some?
    ensures SwapIs(env, w, PlanSwap(env, w, tokenIn, tokenOut, amount, slip, hub).value, tokenIn, tokenOut, amount, slip, hub)
  {
    var (priceIn, decIn) := Price(env, w, tokenIn).value;
    var (priceOut, decOut) := Price(env, w, tokenOut).value;
    PriceIsExactly(env, w, tokenIn, priceIn, decIn);
    PriceIsExactly(env, w, tokenOut, priceOut, decOut);
    SwapAtPrices(amount, decIn, priceIn, decOut, priceOut, slip);
    assert SwapPlannedAt(env, w, PlanSwap(env, w, tokenIn, tokenOut, amount, slip, hub).value.value, slip, priceIn, decIn, priceOut, decOut);
  }

  lemma SwapNotFound(env: Settings, w: World, tokenIn: Address, tokenOut: Address, amount: int, slip: nat, hub: Option<nat>)
    requires amount >= 0 && slip <= 10_000
    requires PlanSwap(env, w, tokenIn, tokenOut, amount, slip, hub) == Ok(None)
    ensures SwapIs(env, w, None, tokenIn, tokenOut, amount, slip, hub)
  {
    forall priceIn, decIn, priceOut, decOut, least | Priced(env, w, tokenIn, priceIn, decIn) && Priced(env, w, tokenOut, priceOut, decOut)
      ensures !WorthSwapping(amount, priceIn, decIn, priceOut, decOut, slip, least)
    {
      PriceIsExactly(env, w, tokenIn, priceIn, decIn);
      PriceIsExactly(env, w, tokenOut, priceOut, decOut);
      if amount > 0 {
        SwapAtPrices(amount, decIn, priceIn, decOut, priceOut, slip);
      }
    }
  }

  lemma SwapIsPlanned(env: Settings, w: World, tokenIn: Address, tokenOut: Address, amount: int, slip: nat, hub: Option<nat>)
    requires amount >= 0 && slip <= 10_000 && PlanSwap(env, w, tokenIn, tokenOut, amount, slip, hub).Ok?
    ensures SwapIs(env, w, PlanSwap(env, w, tokenIn, tokenOut, amount, slip, hub).value, tokenIn, tokenOut, amount, slip, hub)
  {
    if PlanSwap(env, w, tokenIn, tokenOut, amount, slip, hub).value.Some? {
      SwapFound(env, w, tokenIn, tokenOut, amount, slip, hub);
    } else {
      SwapNotFound(env, w, tokenIn, tokenOut, amount, slip, hub);
    }
  }

  // ---- All seven actions ----

  /** Whether and what an action plans, on the world's figures. */
  ghost predicate PlanIs(env: Settings, w: World, user: Address, account: nat, a: Action, plan: Option<Plan>) {
    match a
    case MoveSupply(from, to, amount) =>
      && WithdrawableIn(w, account, from).Ok?
      && var n := Cents(Asked(amount, WithdrawableIn(w, account, from).value));
      plan == if n < DOLLAR then None else Some(Move(from, to, n))
    case SupplyFromWallet(hub, amount) =>
      var n := Cents(Asked(amount, Cents(Balance(w, env.usdc, user))));
      plan == if n < DOLLAR then None else Some(Supply(hub, n))
    case RepayFromWallet(hub, amount) =>
      var n := Least(Cents(Asked(amount, Owed(Debt(w, account, hub)))), Cents(Balance(w, env.usdc, user)));
      plan == if n <= 0 then None else Some(RepayWallet(hub, n))
    case RepayWithCollateral(from, hub, amount) =>
      && WithdrawableIn(w, account, from).Ok?
      && var n := Least(Cents(Asked(amount, Owed(Debt(w, account, hub)))), WithdrawableIn(w, account, from).value);
      plan == if n < DOLLAR then None else Some(RepayCollateral(from, hub, n))
    case WithdrawToWallet(hub, amount) =>
      && WithdrawableIn(w, account, hub).Ok?
      && var n := Cents(Asked(amount, WithdrawableIn(w, account, hub).value));
      plan == if n < DOLLAR then None else Some(Withdraw(hub, n))
    case SwapFromWallet(tokenIn, tokenOut, amount, slip) =>
      SwapIs(env, w, plan, tokenIn, tokenOut, Asked(amount, Balance(w, tokenIn, user)), slip, None)
    case WithdrawAndSwap(hub, tokenOut, amount, slip) =>
      && WithdrawableIn(w, account, hub).Ok?
      && var n := Cents(Asked(amount, WithdrawableIn(w, account, hub).value));
      if n < DOLLAR then plan == None else SwapIs(env, w, plan, env.usdc, tokenOut, n, slip, Some(hub))
  }

  lemma DrawIs(w: World, account: nat, hub: nat, amount: Amount)
    requires Sane(w) && AmountOk(amount) && WithdrawableIn(w, account, hub).Ok?
    ensures Resolve(amount, WithdrawableIn(w, account, hub).value) == Ok(Cents(Asked(amount, WithdrawableIn(w, account, hub).value)))
  {
    WithdrawableInSound(w, account, hub);
    ResolvedIs(amount, WithdrawableIn(w, account, hub).value);
  }

  lemma RepayIs(w: World, account: nat, hub: nat, amount: Amount)
    requires Sane(w) && AmountOk(amount) && DebtBase(Debt(w, account, hub)).Ok?
    ensures Resolve(amount, DebtBase(Debt(w, account, hub)).value) == Ok(Cents(Asked(amount, Owed(Debt(w, account, hub)))))
  {
    OwedIs(Debt(w, account, hub));
    DebtBasePanicsExactly(Debt(w, account, hub));
    ResolvedIs(amount, DebtBase(Debt(w, account, hub)).value);
  }

  /**
    * Whatever the router plans is exactly what was asked, of what is there, in whole cents and in the hubs and tokens the
    * action names; and it plans nothing exactly when that is under a dollar, or for a swap not worth it at the prices read.
    */
  lemma PlanIsWhatWasAsked(env: Settings, w: World, user: Address, account: nat, a: Action)
    requires Sane(w) && ActionOk(a) && PlanFor(env, w, user, account, a).Ok?
    ensures PlanIs(env, w, user, account, a, PlanFor(env, w, user, account, a).value)
  {
    match a
    case MoveSupply(from, _, amount) => DrawIs(w, account, from, amount);
    case SupplyFromWallet(_, amount) =>
      CentsAre(Balance(w, env.usdc, user));
      FloorGrainIs(Balance(w, env.usdc, user));
      ResolvedIs(amount, FloorGrain(Balance(w, env.usdc, user)));
    case RepayFromWallet(hub, amount) =>
      CentsAre(Balance(w, env.usdc, user));
      RepayIs(w, account, hub, amount);
    case RepayWithCollateral(_, hub, amount) => RepayIs(w, account, hub, amount);
    case WithdrawToWallet(hub, amount) => DrawIs(w, account, hub, amount);
    case SwapFromWallet(tokenIn, tokenOut, amount, slip) =>
      ResolvedIs(amount, Balance(w, tokenIn, user));
      SwapIsPlanned(env, w, tokenIn, tokenOut, Asked(amount, Balance(w, tokenIn, user)), slip, None);
    case WithdrawAndSwap(hub, tokenOut, amount, slip) =>
      DrawIs(w, account, hub, amount);
      var n := Cents(Asked(amount, WithdrawableIn(w, account, hub).value));
      if n >= DOLLAR {
        SwapIsPlanned(env, w, env.usdc, tokenOut, n, slip, Some(hub));
      }
  }
}
