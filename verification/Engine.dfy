/**
  * Running a plan against the outside contracts (contracts/koul_router/src/lib.rs:624-647, 728-795). The lending
  * controller and the swap aggregator are arbitrary: each call answers with a new world or refuses, which panics.
  */
module Engine {
  import opened Basics
  import opened MachineInt
  import opened RouterMath
  import opened RouterTypes
  import opened Reads

  /** The keeper's route for a swap: bytes that decode to a payload, or do not. */
  datatype Route = Garbage | Payload(assets: seq<Address>, ops: seq<nat>)

  /** Calls into contracts the router does not own. `withdraw` also reports the first amount it paid, if any. */
  datatype Outside = Outside(
    withdraw: (World, Address, nat, nat, int) -> Checked<(World, Option<int>)>,
    supply: (World, Address, nat, nat, int) -> Checked<World>,
    repay: (World, Address, nat, nat, int) -> Checked<World>,
    strategy: (World, Address, Address, int, Route) -> Checked<World>)

  datatype Kind = MoveSupplyKind | SupplyKind | RepayWalletKind | RepayCollateralKind | WithdrawKind | WithdrawSwapKind | SwapKind

  datatype Executed = Executed(index: nat, kind: Kind, amount: int, fromHub: nat, toHub: nat)

  datatype Planned = Planned(index: nat, kind: Kind, amount: int, needsRoute: bool, tokenIn: Address, tokenOut: Address, minOut: int)

  function KindOf(p: Plan): Kind {
    match p
    case Move(_, _, _) => MoveSupplyKind
    case Supply(_, _) => SupplyKind
    case RepayWallet(_, _) => RepayWalletKind
    case RepayCollateral(_, _, _) => RepayCollateralKind
    case Withdraw(_, _) => WithdrawKind
    case Swap(_, _, _, _, hub) => if hub.Some? then WithdrawSwapKind else SwapKind
  }

  function PlannedOf(env: Settings, p: Plan, index: nat): Planned {
    match p
    case Swap(tokenIn, tokenOut, amount, minOut, _) => Planned(index, KindOf(p), amount, true, tokenIn, tokenOut, minOut)
    case _ => Planned(index, KindOf(p), p.amount, false, env.usdc, env.usdc, 0)
  }

  function RouteAsset(r: Route, i: nat): Option<Address> {
    if r.Payload? && i < |r.ops| && r.ops[i] < |r.assets| then Some(r.assets[r.ops[i]]) else None
  }

  predicate RouteFits(r: Route, tokenIn: Address, tokenOut: Address) {
    RouteAsset(r, 1) == Some(tokenIn) && RouteAsset(r, 2) == Some(tokenOut)
  }

  /** Withdraw and snap what arrived; the dust stays in the wallet. */
  function Take(ext: Outside, w: World, user: Address, account: nat, hub: nat, amount: int): Checked<(World, int)> {
    var (after, got) :- ext.withdraw(w, user, account, hub, amount);
    Ok((after, FloorGrain(if got.Some? then got.value else 0)))
  }

  function RunSwap(ext: Outside, env: Settings, w: World, user: Address, account: nat, p: Plan, route: Option<Route>): Checked<World>
    requires p.Swap?
  {
    if route.None? then Panic(RouteRequired)
    else if !RouteFits(route.value, p.tokenIn, p.tokenOut) then Panic(RouteMismatch)
    else
      var (funded, got) :- if p.withdrawHub.Some? then Take(ext, w, user, account, p.withdrawHub.value, p.amount) else Ok((w, p.amount));
      if got != p.amount then Panic(NothingMoved)
      else if env.aggregator.None? then Panic(NotConfigured)
      else
        var before := Balance(funded, p.tokenOut, user);
        var after :- ext.strategy(funded, user, env.aggregator.value, p.amount, route.value);
        var paid :- Sub(Balance(after, p.tokenOut, user), before);
        if paid < p.minOut then Panic(BelowFloor) else Ok(after)
  }

  /** What running a plan does: the world after it and the report, or the panic that undoes it. */
  function RunPlan(ext: Outside, env: Settings, w: World, user: Address, account: nat, index: nat, p: Plan, route: Option<Route>): Checked<(World, Executed)> {
    match p
    case Move(from, to, amount) =>
      var (taken, got) :- Take(ext, w, user, account, from, amount);
      if got < MIN_MOVE then Panic(NothingMoved)
      else
        var after :- ext.supply(taken, user, account, to, got);
        Ok((after, Executed(index, MoveSupplyKind, got, from, to)))
    case Supply(hub, amount) =>
      var after :- ext.supply(w, user, account, hub, amount);
      Ok((after, Executed(index, SupplyKind, amount, hub, hub)))
    case RepayWallet(hub, amount) =>
      var after :- ext.repay(w, user, account, hub, amount);
      Ok((after, Executed(index, RepayWalletKind, amount, hub, hub)))
    case RepayCollateral(from, hub, amount) =>
      var (taken, got) :- Take(ext, w, user, account, from, amount);
      if got <= 0 then Panic(NothingMoved)
      else
        var after :- ext.repay(taken, user, account, hub, got);
        Ok((after, Executed(index, RepayCollateralKind, got, from, hub)))
    case Withdraw(hub, amount) =>
      var (after, got) :- Take(ext, w, user, account, hub, amount);
      if got <= 0 then Panic(NothingMoved) else Ok((after, Executed(index, WithdrawKind, got, hub, hub)))
    case Swap(_, _, amount, _, hub) =>
      var after :- RunSwap(ext, env, w, user, account, p, route);
      Ok((after, Executed(index, KindOf(p), amount, if hub.Some? then hub.value else 0, 0)))
  }

  /** A call into another contract with the user's authority; a swap names the token its route hands over. */
  datatype OutsideCall = WithdrawCall(hub: nat) | SupplyCall(hub: nat) | RepayCall(hub: nat) | StrategyCall(aggregator: Address, tokenIn: Address)

  /** The calls a plan takes, in order. */
  function CallsOf(env: Settings, p: Plan): seq<OutsideCall> {
    match p
    case Move(from, to, _) => [WithdrawCall(from), SupplyCall(to)]
    case Supply(hub, _) => [SupplyCall(hub)]
    case RepayWallet(hub, _) => [RepayCall(hub)]
    case RepayCollateral(from, hub, _) => [WithdrawCall(from), RepayCall(hub)]
    case Withdraw(hub, _) => [WithdrawCall(hub)]
    case Swap(tokenIn, _, _, _, hub) =>
      (if hub.Some? then [WithdrawCall(hub.value)] else []) +
      (if env.aggregator.Some? then [StrategyCall(env.aggregator.value, tokenIn)] else [])
  }

  /** The same, moving funds one call at a time; `calls` records them as they are made. */
  method Run(ext: Outside, env: Settings, world: World, user: Address, account: nat, index: nat, p: Plan, route: Option<Route>)
    returns (r: Checked<(World, Executed)>, ghost calls: seq<OutsideCall>)
    ensures r.Ok? ==> calls == CallsOf(env, p)
    ensures r == RunPlan(ext, env, world, user, account, index, p, route)
  {
    var w := world;
    calls := [];
    if p.Swap? {
      if route.None? { return Panic(RouteRequired), calls; }
      if RouteAsset(route.value, 1) != Some(p.tokenIn) || RouteAsset(route.value, 2) != Some(p.tokenOut) { return Panic(RouteMismatch), calls; }
    }
    var received := p.amount;
    var from := Source(p);
    if from.Some? {
      var got := ext.withdraw(w, user, account, from.value, p.amount);
      calls := calls + [WithdrawCall(from.value)];
      if got.Panic? { return Panic(got.reason), calls; }
      w := got.value.0;
      received := FloorGrain(if got.value.1.Some? then got.value.1.value else 0);
    }
    match p
    case Move(_, to, _) =>
      if received < MIN_MOVE { return Panic(NothingMoved), calls; }
      var supplied := ext.supply(w, user, account, to, received);
      calls := calls + [SupplyCall(to)];
      if supplied.Panic? { return Panic(supplied.reason), calls; }
      w := supplied.value;
      r := Ok((w, Executed(index, MoveSupplyKind, received, p.from, to)));
    case Supply(hub, amount) =>
      var supplied := ext.supply(w, user, account, hub, amount);
      calls := calls + [SupplyCall(hub)];
      if supplied.Panic? { return Panic(supplied.reason), calls; }
      w := supplied.value;
      r := Ok((w, Executed(index, SupplyKind, amount, hub, hub)));
    case RepayWallet(hub, amount) =>
      var repaid := ext.repay(w, user, account, hub, amount);
      calls := calls + [RepayCall(hub)];
      if repaid.Panic? { return Panic(repaid.reason), calls; }
      w := repaid.value;
      r := Ok((w, Executed(index, RepayWalletKind, amount, hub, hub)));
    case RepayCollateral(_, hub, _) =>
      if received <= 0 { return Panic(NothingMoved), calls; }
      var repaid := ext.repay(w, user, account, hub, received);
      calls := calls + [RepayCall(hub)];
      if repaid.Panic? { return Panic(repaid.reason), calls; }
      w := repaid.value;
      r := Ok((w, Executed(index, RepayCollateralKind, received, p.from, hub)));
    case Withdraw(hub, _) =>
      if received <= 0 { return Panic(NothingMoved), calls; }
      r := Ok((w, Executed(index, WithdrawKind, received, hub, hub)));
    case Swap(tokenIn, tokenOut, amount, minOut, hub) =>
      if received != amount { return Panic(NothingMoved), calls; }
      if env.aggregator.None? { return Panic(NotConfigured), calls; }
      var before := Balance(w, tokenOut, user);
      var swapped := ext.strategy(w, user, env.aggregator.value, amount, route.value);
      calls := calls + [StrategyCall(env.aggregator.value, RouteAsset(route.value, 1).value)];
      if swapped.Panic? { return Panic(swapped.reason), calls; }
      w := swapped.value;
      var paid := Balance(w, tokenOut, user) - before;
      if !FitsI128(paid) { return Panic(Overflow), calls; }
      if paid < minOut { return Panic(BelowFloor), calls; }
      r := Ok((w, Executed(index, KindOf(p), amount, if hub.Some? then hub.value else 0, 0)));
  }

  /** The world in which a swap's payout starts to count: after the withdrawal that funds it, if any. */
  function FundedWorld(ext: Outside, w: World, user: Address, account: nat, p: Plan): World
    requires p.Swap?
  {
    if p.withdrawHub.None? then w
    else
      match Take(ext, w, user, account, p.withdrawHub.value, p.amount)
      case Ok((after, _)) => after
      case Panic(_) => w
  }

  /** However the route and the aggregator behave, a committed swap pays at least what its plan says. */
  lemma SwapPaysItsPlan(ext: Outside, env: Settings, w: World, user: Address, account: nat, index: nat, p: Plan, route: Option<Route>)
    requires p.Swap? && RunPlan(ext, env, w, user, account, index, p, route).Ok?
    ensures route.Some? && RouteFits(route.value, p.tokenIn, p.tokenOut)
    ensures var after := RunPlan(ext, env, w, user, account, index, p, route).value.0;
            Balance(after, p.tokenOut, user) >= Balance(FundedWorld(ext, w, user, account, p), p.tokenOut, user) + p.minOut
  {
    assert RunSwap(ext, env, w, user, account, p, route).Ok?;
  }
}
