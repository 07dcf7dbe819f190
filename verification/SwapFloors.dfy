/**
  * A rule's swap from the oracle's prices to the wallet: the floor a committed tick enforces is the oracle's output less the
  * slippage (contracts/koul_router/src/lib.rs:412-423, 671-682, 767-792).
  */
module SwapFloors {
  import opened Basics
  import opened MachineInt
  import opened RouterMath
  import opened RouterTypes
  import opened Reads
  import opened Engine
  import opened Registry
  import opened Router
  import opened Walks
  import opened Conservation

  /** The plan swaps the action's pair, for the floor of the prices read now. */
  predicate FlooredByOracle(env: Settings, w: World, a: Action, p: Plan) {
    && p.Swap? && (a.SwapFromWallet? || a.WithdrawAndSwap?)
    && SwapPair(env, a) == Some((p.tokenIn, p.tokenOut)) && p.amount > 0
    && (match (Price(env, w, p.tokenIn), Price(env, w, p.tokenOut))
        case (Some((priceIn, decIn)), Some((priceOut, decOut))) =>
          SwapFloor(p.amount, decIn, priceIn, decOut, priceOut, a.slippage) == Ok(p.minOut) && p.minOut > 0
        case _ => false)
  }

  lemma PlanIsFloored(env: Settings, w: World, user: Address, account: nat, a: Action, p: Plan)
    requires PlanFor(env, w, user, account, a) == Ok(Some(p)) && p.Swap?
    ensures FlooredByOracle(env, w, a, p)
  {
  }

  /** The tick committed a swap. */
  predicate SwapCommitted(ext: Outside, env: Settings, s: Storage, w: World, user: Address, id: nat, route: Option<Route>) {
    var t := TickOf(ext, env, s, w, user, id, route);
    t.Ok? && t.value.2.Some? && (t.value.2.value.kind == SwapKind || t.value.2.value.kind == WithdrawSwapKind)
  }

  /** The rule a committed tick ran. */
  function Ran(env: Settings, s: Storage, w: World, user: Address, id: nat): (c: Choice)
    requires (user, id) in s.autopilots && Choose(env, s, w, user, id, s.autopilots[(user, id)]).Ok?
    requires Choose(env, s, w, user, id, s.autopilots[(user, id)]).value.Some?
    ensures c.index < |s.autopilots[(user, id)].rules|
  {
    ChooseIsFirst(env, s, w, user, id, s.autopilots[(user, id)], Choose(env, s, w, user, id, s.autopilots[(user, id)]).value.value);
    Choose(env, s, w, user, id, s.autopilots[(user, id)]).value.value
  }

  /** What a committed swap leaves the wallet above the world it was funded in, in the token it buys. */
  function Received(ext: Outside, env: Settings, s: Storage, w: World, user: Address, id: nat, route: Option<Route>): int
    requires TickOf(ext, env, s, w, user, id, route).Ok? && (user, id) in s.autopilots
    requires Choose(env, s, w, user, id, s.autopilots[(user, id)]).Ok? && Choose(env, s, w, user, id, s.autopilots[(user, id)]).value.Some?
    requires Ran(env, s, w, user, id).plan.Swap?
  {
    var p := Ran(env, s, w, user, id).plan;
    Balance(TickOf(ext, env, s, w, user, id, route).value.1, p.tokenOut, user)
    - Balance(FundedWorld(ext, w, user, s.autopilots[(user, id)].accountId, p), p.tokenOut, user)
  }

  lemma SwapRan(ext: Outside, env: Settings, s: Storage, w: World, user: Address, id: nat, route: Option<Route>)
    requires SwapCommitted(ext, env, s, w, user, id, route)
    ensures (user, id) in s.autopilots
    ensures Choose(env, s, w, user, id, s.autopilots[(user, id)]).Ok? && Choose(env, s, w, user, id, s.autopilots[(user, id)]).value.Some?
    ensures var c, ap := Ran(env, s, w, user, id), s.autopilots[(user, id)];
            c.plan.Swap? && RunPlan(ext, env, w, user, ap.accountId, c.index, c.plan, route).Ok?
  {
    var ap := s.autopilots[(user, id)];
    var c := Choose(env, s, w, user, id, ap).value.value;
    RunReports(ext, env, w, user, ap.accountId, c.index, c.plan, route);
  }

  /**
    * Whatever route the keeper brings and whatever the controller and the aggregator do: a tick that commits a swap ran a
    * rule whose floor is `swap_floor` of the prices in the world, and the wallet received at least that.
    */
  lemma SwapTickPaysTheFloor(ext: Outside, env: Settings, s: Storage, w: World, user: Address, id: nat, route: Option<Route>)
    requires SwapCommitted(ext, env, s, w, user, id, route)
    ensures (user, id) in s.autopilots
    ensures Choose(env, s, w, user, id, s.autopilots[(user, id)]).Ok? && Choose(env, s, w, user, id, s.autopilots[(user, id)]).value.Some?
    ensures var c := Ran(env, s, w, user, id);
            && FlooredByOracle(env, w, s.autopilots[(user, id)].rules[c.index].action, c.plan)
            && Received(ext, env, s, w, user, id, route) >= c.plan.minOut
            && route.Some? && RouteFits(route.value, c.plan.tokenIn, c.plan.tokenOut)
  {
    SwapRan(ext, env, s, w, user, id, route);
    var ap, c := s.autopilots[(user, id)], Ran(env, s, w, user, id);
    ChooseIsFirst(env, s, w, user, id, ap, c);
    PlanIsFloored(env, w, user, ap.accountId, ap.rules[c.index].action, c.plan);
    SwapPaysItsPlan(ext, env, w, user, ap.accountId, c.index, c.plan, route);
  }

  function SlippageOf(a: Action): Option<nat> {
    match a
    case SwapFromWallet(_, _, _, slip) => Some(slip)
    case WithdrawAndSwap(_, _, _, slip) => Some(slip)
    case _ => None
  }

  /** The oracle's output for what a swap sells, less the slippage, without rounding. */
  ghost function OracleOutput(env: Settings, w: World, p: Plan, slip: nat): real
    requires p.Swap? && Price(env, w, p.tokenIn).Some? && Price(env, w, p.tokenOut).Some?
  {
    var (priceIn, decIn) := Price(env, w, p.tokenIn).value;
    var (priceOut, decOut) := Price(env, w, p.tokenOut).value;
    Pow10Positive(decIn);
    ExactChain(p.amount * priceIn, Pow10(decIn), Pow10(decOut), priceOut, 10_000 - slip)
  }

  /** The units of the output token that one unit of the oracle's value buys. */
  ghost function Step(env: Settings, w: World, p: Plan): real
    requires p.Swap? && Price(env, w, p.tokenOut).Some?
  {
    var (priceOut, decOut) := Price(env, w, p.tokenOut).value;
    Pow10(decOut) as real / priceOut as real
  }

  /** So it received the oracle's output less the slippage, but for less than one price step of the output and two units. */
  lemma SwapTickPaysTheOracle(ext: Outside, env: Settings, s: Storage, w: World, user: Address, id: nat, route: Option<Route>)
    requires Exact(s) && SwapCommitted(ext, env, s, w, user, id, route)
    ensures (user, id) in s.autopilots
    ensures Choose(env, s, w, user, id, s.autopilots[(user, id)]).Ok? && Choose(env, s, w, user, id, s.autopilots[(user, id)]).value.Some?
    ensures var c := Ran(env, s, w, user, id);
            && c.plan.Swap? && Price(env, w, c.plan.tokenIn).Some? && Price(env, w, c.plan.tokenOut).Some?
            && SlippageOf(s.autopilots[(user, id)].rules[c.index].action).Some?
            && Received(ext, env, s, w, user, id, route) as real
             > OracleOutput(env, w, c.plan, SlippageOf(s.autopilots[(user, id)].rules[c.index].action).value) - Step(env, w, c.plan) - 2.0
  {
    SwapTickPaysTheFloor(ext, env, s, w, user, id, route);
    var ap, c := s.autopilots[(user, id)], Ran(env, s, w, user, id);
    var a := ap.rules[c.index].action;
    assert ap.rules[c.index] in ap.rules;
    var (priceIn, decIn) := Price(env, w, c.plan.tokenIn).value;
    var (priceOut, decOut) := Price(env, w, c.plan.tokenOut).value;
    SwapFloorIsTight(c.plan.amount, decIn, priceIn, decOut, priceOut, a.slippage);
  }

  /**
    * Nothing but the swap counts towards it: a wallet swap is measured from the world the tick started in, and so is a
    * withdrawn one when the controller is honest and the token bought is not USDC.
    */
  lemma ReceivedIsTheRise(ext: Outside, env: Settings, s: Storage, w: World, user: Address, id: nat, route: Option<Route>)
    requires SwapCommitted(ext, env, s, w, user, id, route)
    ensures (user, id) in s.autopilots
    ensures Choose(env, s, w, user, id, s.autopilots[(user, id)]).Ok? && Choose(env, s, w, user, id, s.autopilots[(user, id)]).value.Some?
    ensures var p := Ran(env, s, w, user, id).plan;
            && p.Swap?
            && (p.withdrawHub.None? || (Honest(ext, env) && p.tokenOut != env.usdc) ==>
                  Received(ext, env, s, w, user, id, route)
                  == Balance(TickOf(ext, env, s, w, user, id, route).value.1, p.tokenOut, user) - Balance(w, p.tokenOut, user))
  {
    SwapRan(ext, env, s, w, user, id, route);
    var ap, c := s.autopilots[(user, id)], Ran(env, s, w, user, id);
    if c.plan.withdrawHub.Some? && Honest(ext, env) && c.plan.tokenOut != env.usdc {
      var hub := c.plan.withdrawHub.value;
      var (after, got) := ext.withdraw(w, user, ap.accountId, hub, c.plan.amount).value;
      assert after == Withdrawn(env, w, user, ap.accountId, hub, got.value);
    }
  }

  /** An honest controller that was asked for an amount on the grain and paid it, once floored, paid just that. */
  lemma PaidInFull(got: int, amount: int)
    requires 0 <= got <= amount && OnGrain(amount) && FloorGrain(got) == amount
    ensures got == amount
  {
    FloorGrainIs(got);
  }

  /**
    * The lending leg of a committed withdraw-and-swap, before the aggregator is called: the wallet has exactly the plan's
    * amount more in USDC, the person's money is what it was, and the hub drawn on is left with cash and under its ceiling.
    */
  lemma WithdrawSwapDrawsItsAmount(ext: Outside, env: Settings, s: Storage, w: World, user: Address, id: nat, route: Option<Route>)
    requires Exact(s) && Sane(w) && Honest(ext, env)
    requires SwapCommitted(ext, env, s, w, user, id, route)
    requires TickOf(ext, env, s, w, user, id, route).value.2.value.kind == WithdrawSwapKind
    ensures (user, id) in s.autopilots
    ensures Choose(env, s, w, user, id, s.autopilots[(user, id)]).Ok? && Choose(env, s, w, user, id, s.autopilots[(user, id)]).value.Some?
    ensures var p, account := Ran(env, s, w, user, id).plan, s.autopilots[(user, id)].accountId;
            && p.Swap? && p.withdrawHub.Some?
            && var hub, funded := p.withdrawHub.value, FundedWorld(ext, w, user, account, p);
            && Wealth(env, funded, user, account) == Wealth(env, w, user, account)
            && Solvent(env, funded, user, account)
            && WithinLimits(HubOf(funded, hub))
            && Balance(funded, env.usdc, user) == Balance(w, env.usdc, user) + p.amount
            && Collateral(funded, account, hub) == Collateral(w, account, hub) - p.amount
  {
    SwapRan(ext, env, s, w, user, id, route);
    var ap, c := s.autopilots[(user, id)], Ran(env, s, w, user, id);
    ChosenPlanIsSound(env, s, w, user, id, c);
    SaneIsSolvent(env, w, user, ap.accountId);
    RunReports(ext, env, w, user, ap.accountId, c.index, c.plan, route);
    var hub := c.plan.withdrawHub.value;
    var (_, reported) := ext.withdraw(w, user, ap.accountId, hub, c.plan.amount).value;
    PaidInFull(reported.value, c.plan.amount);
    WithdrawnKeeps(env, w, user, ap.accountId, hub, c.plan.amount, c.plan.amount);
    CollateralAfter(env, w, user, ap.accountId, hub, -c.plan.amount, c.plan.amount, hub);
  }

  // ---- What next_action announces of a swap ----

  /** The route hands over one token and ends in another: its second and third operands. */
  predicate RouteGoes(r: Route, tokenIn: Address, tokenOut: Address) {
    && r.Payload? && |r.ops| > 2 && r.ops[1] < |r.assets| && r.ops[2] < |r.assets|
    && r.assets[r.ops[1]] == tokenIn && r.assets[r.ops[2]] == tokenOut
  }

  /**
    * A route is needed exactly as announced: without one such a tick panics, and otherwise the route makes no difference. A
    * committed tick had a route for the announced pair, sold the announced amount, and the wallet got at least what was
    * announced as the least.
    */
  lemma AnnouncedSwapIsRun(ext: Outside, env: Settings, s: Storage, w: World, user: Address, id: nat, route: Option<Route>)
    requires NextActionOf(env, s, w, user, id).Ok? && NextActionOf(env, s, w, user, id).value.Some?
    ensures var next := NextActionOf(env, s, w, user, id).value.value;
            && (next.needsRoute ==> TickOf(ext, env, s, w, user, id, None) == Panic(RouteRequired))
            && (!next.needsRoute ==> TickOf(ext, env, s, w, user, id, route) == TickOf(ext, env, s, w, user, id, None))
    ensures (user, id) in s.autopilots
    ensures Choose(env, s, w, user, id, s.autopilots[(user, id)]).Ok? && Choose(env, s, w, user, id, s.autopilots[(user, id)]).value.Some?
    ensures var next, p, t := NextActionOf(env, s, w, user, id).value.value, Ran(env, s, w, user, id).plan, TickOf(ext, env, s, w, user, id, route);
            next.needsRoute && t.Ok? ==>
              && p.Swap? && next.tokenIn == p.tokenIn && next.tokenOut == p.tokenOut
              && route.Some? && RouteGoes(route.value, next.tokenIn, next.tokenOut)
              && t.value.2.Some? && t.value.2.value.amount == next.amount == p.amount
              && Received(ext, env, s, w, user, id, route) >= next.minOut
  {
    var ap := s.autopilots[(user, id)];
    var c := Choose(env, s, w, user, id, ap).value.value;
    var next := NextActionOf(env, s, w, user, id).value.value;
    if next.needsRoute {
      assert RunPlan(ext, env, w, user, ap.accountId, c.index, c.plan, None) == Panic(RouteRequired);
    } else {
      assert RunPlan(ext, env, w, user, ap.accountId, c.index, c.plan, route) == RunPlan(ext, env, w, user, ap.accountId, c.index, c.plan, None);
    }
    if next.needsRoute && TickOf(ext, env, s, w, user, id, route).Ok? {
      SwapPaysItsPlan(ext, env, w, user, ap.accountId, c.index, c.plan, route);
    }
  }
}
