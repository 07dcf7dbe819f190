/**
  * The world the router reads, and what a rule makes of it (contracts/koul_router/src/lib.rs:561-727): conditions are
  * evaluated and an action is resolved into a plan from reads alone.
  */
module Reads {
  import opened Basics
  import opened MachineInt
  import opened RouterMath
  import opened RouterTypes
  import AgentPolicy

  datatype Quote = Quote(price: int, timestamp: nat)

  /** One hub of the lending pool, for USDC: its deposit rate, cash, totals and utilisation ceiling. */
  datatype Hub = Hub(rate: int, cash: int, supplied: int, borrowed: int, maxUtilization: int)

  /** One lending account: collateral and debt by hub, and its health factor. */
  datatype Position = Position(collateral: map<nat, int>, debt: map<nat, int>, health: int)

  /** Everything outside the router's own storage. Balances are by token and holder. */
  datatype World = World(ledger: nat, timestamp: nat, balances: map<(Address, Address), int>, positions: map<nat, Position>,
                         hubs: map<nat, Hub>, quotes: map<(Address, OracleAsset), Quote>,
                         sessions: map<Address, AgentPolicy.Session>)

  function Balance(w: World, token: Address, holder: Address): int {
    if (token, holder) in w.balances then w.balances[(token, holder)] else 0
  }

  function HubOf(w: World, hub: nat): Hub {
    if hub in w.hubs then w.hubs[hub] else Hub(0, 0, 0, 0, 0)
  }

  function PositionOf(w: World, account: nat): Position {
    if account in w.positions then w.positions[account] else Position(map[], map[], I128_MAX)
  }

  function Collateral(w: World, account: nat, hub: nat): int {
    var c := PositionOf(w, account).collateral;
    if hub in c then c[hub] else 0
  }

  function Debt(w: World, account: nat, hub: nat): int {
    var d := PositionOf(w, account).debt;
    if hub in d then d[hub] else 0
  }

  // ---- Conditions ----

  datatype ConditionState = ConditionState(holds: bool, observed: int)

  /** A registered token's USD price and decimals; none without a feed, or when the oracle's price is missing, stale or not positive. */
  function Price(env: Settings, w: World, token: Address): Option<(int, nat)> {
    if token !in env.feeds then None
    else
      var f := env.feeds[token];
      match f.source
      case FixedPrice(p) => if p > 0 then Some((p, f.decimals)) else None
      case FromOracle(oracle, asset, maxAge) =>
        if (oracle, asset) !in w.quotes then None
        else
          var q := w.quotes[(oracle, asset)];
          if IsStale(w.timestamp, q.timestamp, maxAge) || q.price <= 0 then None else Some((q.price, f.decimals))
  }

  function Evaluate(env: Settings, w: World, user: Address, account: nat, c: Condition): Checked<ConditionState> {
    match c
    case HealthFactor(cmp, level) =>
      var health := PositionOf(w, account).health;
      Ok(ConditionState(Holds(cmp, health, level), health))
    case SupplyRateGap(over, under, minBps) =>
      var gap :- Sub(HubOf(w, over).rate, HubOf(w, under).rate);
      var least :- Mul(minBps, BPS_RAY);
      Ok(ConditionState(gap >= least, TruncDiv(gap, BPS_RAY)))
    case SupplyRate(hub, cmp, bps) =>
      var rate := TruncDiv(HubOf(w, hub).rate, BPS_RAY);
      Ok(ConditionState(Holds(cmp, rate, bps), rate))
    case FxPrice(asset, cmp, level, maxAge) =>
      var key := (env.oracle, Other(asset));
      if key !in w.quotes then Ok(ConditionState(false, 0))
      else
        var q := w.quotes[key];
        Ok(ConditionState(!IsStale(w.timestamp, q.timestamp, maxAge) && Holds(cmp, q.price, level), q.price))
    case IdleBalance(cmp, amount) =>
      var idle := Balance(w, env.usdc, user);
      Ok(ConditionState(Holds(cmp, idle, amount), idle))
    case TokenPrice(token, cmp, level) =>
      (match Price(env, w, token)
       case Some((p, _)) => Ok(ConditionState(Holds(cmp, p, level), p))
       case None => Ok(ConditionState(false, 0)))
    case TokenBalance(token, cmp, amount) =>
      var b := Balance(w, token, user);
      Ok(ConditionState(Holds(cmp, b, amount), b))
  }

  /** The states of the first `n` conditions, or the first panic among them. */
  function EvaluateFirst(env: Settings, w: World, user: Address, account: nat, cs: seq<Condition>, n: nat): Checked<seq<ConditionState>>
    requires n <= |cs|
  {
    if n == 0 then Ok([])
    else
      var before :- EvaluateFirst(env, w, user, account, cs, n - 1);
      var state :- Evaluate(env, w, user, account, cs[n - 1]);
      Ok(before + [state])
  }

  /** All conditions of a rule hold, or any of them, as the rule asks. */
  predicate Combined(matchAll: bool, states: seq<ConditionState>) {
    if matchAll then forall s :: s in states ==> s.holds else exists s :: s in states && s.holds
  }

  function EvaluateRule(env: Settings, w: World, user: Address, account: nat, r: Rule): Checked<(bool, seq<ConditionState>)> {
    var states :- EvaluateFirst(env, w, user, account, r.conditions, |r.conditions|);
    Ok((Combined(r.matchAll, states), states))
  }

  lemma {:induction false} PanicSpreads(env: Settings, w: World, user: Address, account: nat, cs: seq<Condition>, n: nat, m: nat)
    requires n <= m <= |cs| && EvaluateFirst(env, w, user, account, cs, n).Panic?
    ensures EvaluateFirst(env, w, user, account, cs, m) == EvaluateFirst(env, w, user, account, cs, n)
  {
    if n < m {
      PanicSpreads(env, w, user, account, cs, n, m - 1);
    }
  }

  /** Every condition is read, whatever the earlier ones say, and the two flags are carried along. */
  method ReadRule(env: Settings, w: World, user: Address, account: nat, r: Rule) returns (read: Checked<(bool, seq<ConditionState>)>)
    ensures read == EvaluateRule(env, w, user, account, r)
  {
    var states: seq<ConditionState>, all, any := [], true, false;
    for i := 0 to |r.conditions|
      invariant EvaluateFirst(env, w, user, account, r.conditions, i) == Ok(states)
      invariant all == Combined(true, states)
      invariant any == Combined(false, states)
    {
      var s := Evaluate(env, w, user, account, r.conditions[i]);
      if s.Panic? {
        PanicSpreads(env, w, user, account, r.conditions, i + 1, |r.conditions|);
        return Panic(s.reason);
      }
      all := all && s.value.holds;
      any := any || s.value.holds;
      states := states + [s.value];
    }
    read := Ok((if r.matchAll then all else any, states));
  }

  // ---- Plans ----

  /** A resolved action: what will be moved, decided from reads only. */
  datatype Plan =
    | Move(from: nat, to: nat, amount: int)
    | Supply(hub: nat, amount: int)
    | RepayWallet(hub: nat, amount: int)
    | RepayCollateral(from: nat, hub: nat, amount: int)
    | Withdraw(hub: nat, amount: int)
    | Swap(tokenIn: Address, tokenOut: Address, amount: int, minOut: int, withdrawHub: Option<nat>)

  function WithdrawableIn(w: World, account: nat, hub: nat): Checked<int> {
    var c, h := Collateral(w, account, hub), HubOf(w, hub);
    if c <= 0 then Ok(0) else Withdrawable(c, h.cash, h.supplied, h.borrowed, h.maxUtilization)
  }

  /** A swap is planned when it is worth a dollar and the router's floor for it is positive. */
  function PlanSwap(env: Settings, w: World, tokenIn: Address, tokenOut: Address, amount: int, slip: nat, hub: Option<nat>): Checked<Option<Plan>> {
    match (Price(env, w, tokenIn), Price(env, w, tokenOut))
    case (Some((priceIn, decIn)), Some((priceOut, decOut))) =>
      if amount <= 0 then Ok(None)
      else
        var usd :- UsdValue(amount, decIn, priceIn);
        if usd < PRICE_ONE then Ok(None)
        else
          var minOut :- SwapFloor(amount, decIn, priceIn, decOut, priceOut, slip);
          if minOut <= 0 then Ok(None) else Ok(Some(Swap(tokenIn, tokenOut, amount, minOut, hub)))
    case _ => Ok(None)
  }

  function PlanFor(env: Settings, w: World, user: Address, account: nat, a: Action): Checked<Option<Plan>> {
    match a
    case MoveSupply(from, to, amount) =>
      var base :- WithdrawableIn(w, account, from);
      var out :- Resolve(amount, base);
      Ok(if out < MIN_MOVE then None else Some(Move(from, to, out)))
    case SupplyFromWallet(hub, amount) =>
      var put :- Resolve(amount, FloorGrain(Balance(w, env.usdc, user)));
      Ok(if put < MIN_MOVE then None else Some(Supply(hub, put)))
    case RepayFromWallet(hub, amount) =>
      var base :- DebtBase(Debt(w, account, hub));
      var want :- Resolve(amount, base);
      var idle := FloorGrain(Balance(w, env.usdc, user));
      var pay := if want < idle then want else idle;
      Ok(if pay <= 0 then None else Some(RepayWallet(hub, pay)))
    case RepayWithCollateral(from, hub, amount) =>
      var base :- DebtBase(Debt(w, account, hub));
      var want :- Resolve(amount, base);
      var available :- WithdrawableIn(w, account, from);
      var out := if want < available then want else available;
      Ok(if out < MIN_MOVE then None else Some(RepayCollateral(from, hub, out)))
    case WithdrawToWallet(hub, amount) =>
      var base :- WithdrawableIn(w, account, hub);
      var out :- Resolve(amount, base);
      Ok(if out < MIN_MOVE then None else Some(Withdraw(hub, out)))
    case SwapFromWallet(tokenIn, tokenOut, amount, slip) =>
      var want :- Want(amount, Balance(w, tokenIn, user));
      PlanSwap(env, w, tokenIn, tokenOut, want, slip, None)
    case WithdrawAndSwap(hub, tokenOut, amount, slip) =>
      var base :- WithdrawableIn(w, account, hub);
      var out :- Resolve(amount, base);
      if out < MIN_MOVE then Ok(None) else PlanSwap(env, w, env.usdc, tokenOut, out, slip, Some(hub))
  }

  // ---- What a plan promises ----

  /** Balances and positions fit the chain's integers and are not negative. */
  ghost predicate Sane(w: World) {
    && (forall k :: k in w.balances ==> 0 <= w.balances[k] <= I128_MAX)
    && (forall a, h :: 0 <= Collateral(w, a, h) <= I128_MAX && 0 <= Debt(w, a, h) <= I128_MAX)
    && (forall h :: h in w.hubs ==> w.hubs[h].cash <= I128_MAX)
  }

  lemma WithdrawableInSound(w: World, account: nat, hub: nat)
    requires Sane(w) && WithdrawableIn(w, account, hub).Ok?
    ensures var out, h := WithdrawableIn(w, account, hub).value, HubOf(w, hub);
            && OnGrain(out) && out <= Collateral(w, account, hub)
            && (out > 0 ==> PoolAllows(out, h.cash, h.supplied, h.borrowed, h.maxUtilization))
  {
    var c, h := Collateral(w, account, hub), HubOf(w, hub);
    if c > 0 {
      WithdrawableSound(c, h.cash, h.supplied, h.borrowed, h.maxUtilization);
    }
  }

  /** Taking less than the pool allows is allowed too. */
  lemma LessIsAllowed(x: int, y: int, h: Hub)
    requires x <= y && PoolAllows(y, h.cash, h.supplied, h.borrowed, h.maxUtilization)
    ensures PoolAllows(x, h.cash, h.supplied, h.borrowed, h.maxUtilization)
  {
    if CeilingActive(h.borrowed, h.maxUtilization) {
      MulMonotone(h.maxUtilization, h.supplied - y, h.supplied - x);
    }
  }

  /** The hub a plan withdraws from, if any. */
  function Source(p: Plan): Option<nat> {
    match p
    case Move(from, _, _) => Some(from)
    case RepayCollateral(from, _, _) => Some(from)
    case Withdraw(hub, _) => Some(hub)
    case Swap(_, _, _, _, hub) => hub
    case _ => None
  }

  /** The token and amount a plan takes from the wallet before it withdraws anything. */
  predicate WalletCovers(env: Settings, w: World, user: Address, p: Plan) {
    match p
    case Supply(_, amount) => amount <= Balance(w, env.usdc, user)
    case RepayWallet(_, amount) => amount <= Balance(w, env.usdc, user)
    case Swap(tokenIn, _, amount, _, None) => amount <= Balance(w, tokenIn, user)
    case _ => true
  }

  /** Anything up to what is withdrawable can leave the hub. */
  ghost predicate Drawable(w: World, account: nat, hub: nat, amount: int) {
    var h := HubOf(w, hub);
    amount <= Collateral(w, account, hub) && PoolAllows(amount, h.cash, h.supplied, h.borrowed, h.maxUtilization)
  }

  /**
    * What every plan can count on: a positive amount, on the grain for everything that goes through the lending protocol,
    * covered by the wallet or by what the source hub and the position let go.
    */
  ghost predicate Sound(env: Settings, w: World, user: Address, account: nat, p: Plan) {
    && p.amount > 0
    && (p.Move? ==> p.from != p.to)
    && (!p.Swap? || p.withdrawHub.Some? ==> OnGrain(p.amount))
    && (p.Move? || p.Supply? || p.RepayCollateral? || p.Withdraw? || Source(p).Some? ==> p.amount >= MIN_MOVE)
    && WalletCovers(env, w, user, p)
    && (Source(p).Some? ==> Drawable(w, account, Source(p).value, p.amount))
    && (p.Swap? ==> p.minOut > 0)
  }

  lemma UpToWithdrawable(w: World, account: nat, hub: nat, amount: int)
    requires Sane(w) && WithdrawableIn(w, account, hub).Ok? && 0 < amount <= WithdrawableIn(w, account, hub).value
    ensures Drawable(w, account, hub, amount)
  {
    WithdrawableInSound(w, account, hub);
    LessIsAllowed(amount, WithdrawableIn(w, account, hub).value, HubOf(w, hub));
  }

  lemma ResolvedDraw(w: World, account: nat, hub: nat, amount: Amount)
    requires Sane(w) && AmountOk(amount) && WithdrawableIn(w, account, hub).Ok?
    ensures var base := WithdrawableIn(w, account, hub).value;
            && Resolve(amount, base).Ok? && OnGrain(Resolve(amount, base).value)
            && (Resolve(amount, base).value > 0 ==> Drawable(w, account, hub, Resolve(amount, base).value))
  {
    var base := WithdrawableIn(w, account, hub).value;
    WithdrawableInSound(w, account, hub);
    ResolveIs(amount, base);
    WantIsExact(amount, base);
    if Resolve(amount, base).value > 0 {
      UpToWithdrawable(w, account, hub, Resolve(amount, base).value);
    }
  }

  lemma SourcePlanIsSound(env: Settings, w: World, user: Address, account: nat, a: Action, p: Plan)
    requires Sane(w) && ActionOk(a) && PlanFor(env, w, user, account, a) == Ok(Some(p)) && Source(p).Some?
    ensures Sound(env, w, user, account, p)
  {
    match a
    case MoveSupply(from, _, amount) => ResolvedDraw(w, account, from, amount);
    case WithdrawToWallet(hub, amount) => ResolvedDraw(w, account, hub, amount);
    case WithdrawAndSwap(hub, _, amount, _) => ResolvedDraw(w, account, hub, amount);
    case RepayWithCollateral(from, hub, amount) =>
      WithdrawableInSound(w, account, from);
      DebtBaseIsAmount(Debt(w, account, hub), amount);
      UpToWithdrawable(w, account, from, p.amount);
  }

  lemma WalletPlanIsSound(env: Settings, w: World, user: Address, account: nat, a: Action, p: Plan)
    requires Sane(w) && ActionOk(a) && PlanFor(env, w, user, account, a) == Ok(Some(p)) && Source(p).None?
    ensures Sound(env, w, user, account, p)
  {
    match a
    case SupplyFromWallet(_, amount) =>
      FloorGrainIs(Balance(w, env.usdc, user));
      ResolveIs(amount, FloorGrain(Balance(w, env.usdc, user)));
      WantIsExact(amount, FloorGrain(Balance(w, env.usdc, user)));
    case RepayFromWallet(hub, amount) =>
      FloorGrainIs(Balance(w, env.usdc, user));
      DebtBaseIsAmount(Debt(w, account, hub), amount);
    case SwapFromWallet(tokenIn, _, amount, _) =>
      WantIsExact(amount, Balance(w, tokenIn, user));
  }

  lemma PlanIsSound(env: Settings, w: World, user: Address, account: nat, a: Action, p: Plan)
    requires Sane(w) && ActionOk(a) && PlanFor(env, w, user, account, a) == Ok(Some(p))
    ensures Sound(env, w, user, account, p)
  {
    if Source(p).Some? {
      SourcePlanIsSound(env, w, user, account, a, p);
    } else {
      WalletPlanIsSound(env, w, user, account, a, p);
    }
  }

  lemma DebtBaseIsAmount(debt: int, amount: Amount)
    requires 0 <= debt <= I128_MAX && AmountOk(amount) && DebtBase(debt).Ok?
    ensures Resolve(amount, DebtBase(debt).value).Ok? && OnGrain(Resolve(amount, DebtBase(debt).value).value)
  {
    if debt > 0 {
      FloorGrainIs(debt + GRAIN);
    }
    ResolveIs(amount, DebtBase(debt).value);
  }
}
