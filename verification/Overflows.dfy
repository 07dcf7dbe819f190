/**
  * When a read of the router overflows, and what that does to a tick. The hub figures are multiplied by 10^27 in i128
  * (contracts/koul_router/src/lib.rs:371-380), prices by the tokens' scales (412-423); a panic while planning one rule
  * stops the walk before any later rule.
  */
module Overflows {
  import opened Basics
  import opened MachineInt
  import opened RouterMath
  import opened RouterTypes
  import opened Reads
  import opened Engine
  import opened Registry
  import opened Router
  import opened Walks

  /** Collateral in a hub whose ceiling binds and that has lent out more than 17014.1183460 USDC. */
  predicate BusyHub(w: World, account: nat, hub: nat) {
    var h := HubOf(w, hub);
    Collateral(w, account, hub) > 0 && CeilingActive(h.borrowed, h.maxUtilization) && h.borrowed > 170_141_183_460
  }

  predicate HubFits(h: Hub) {
    0 <= h.rate <= I128_MAX && FitsI128(h.cash) && 0 <= h.supplied <= I128_MAX
  }

  /** The hubs report a rate and a supply that are non-negative i128 numbers, and cash that is one. */
  ghost predicate FiguresFit(w: World) {
    forall hub :: HubFits(HubOf(w, hub))
  }

  lemma WithdrawableInPanicsExactly(w: World, account: nat, hub: nat)
    requires HubFits(HubOf(w, hub))
    ensures WithdrawableIn(w, account, hub).Panic? <==> BusyHub(w, account, hub)
    ensures WithdrawableIn(w, account, hub).Panic? ==> WithdrawableIn(w, account, hub) == Panic(Overflow)
  {
    var h := HubOf(w, hub);
    WithdrawablePanicsExactly(Collateral(w, account, hub), h.cash, h.supplied, h.borrowed, h.maxUtilization);
  }

  // ---- Which plans overflow ----

  /** A debt so large that it cannot be rounded up to the grain. */
  predicate DebtTooLarge(debt: int) {
    debt > I128_MAX - I128_MAX % GRAIN - GRAIN
  }

  /** Both prices are there, and the amount's value or its output scale does not fit. */
  predicate SwapOverflows(env: Settings, w: World, tokenIn: Address, tokenOut: Address, amount: int) {
    match (Price(env, w, tokenIn), Price(env, w, tokenOut))
    case (Some((priceIn, decIn)), Some((_, decOut))) =>
      Pow10Positive(decIn);
      var usd := amount * priceIn / Pow10(decIn);
      && amount > 0
      && (|| decIn > 38 || amount % Pow10(decIn) * priceIn > I128_MAX || usd > I128_MAX
          || (usd >= PRICE_ONE && (decOut > 38 || usd * Pow10(decOut) > I128_MAX)))
    case _ => false
  }

  /** What a rule draws from a hub when that does not overflow. */
  function Drawn(w: World, account: nat, hub: nat, amount: Amount): int {
    match WithdrawableIn(w, account, hub)
    case Panic(_) => 0
    case Ok(base) => (match Resolve(amount, base) case Panic(_) => 0 case Ok(x) => x)
  }

  /** What a swap from the wallet would sell. */
  function Sold(amount: Amount, balance: int): int {
    match amount
    case All => balance
    case Percent(bps) => balance * bps / 10_000
    case Fixed(x) => if x < balance then x else balance
  }

  /** The figures for which planning an action overflows. */
  predicate PlanOverflows(env: Settings, w: World, user: Address, account: nat, a: Action) {
    match a
    case MoveSupply(from, _, _) => BusyHub(w, account, from)
    case SupplyFromWallet(_, _) => false
    case RepayFromWallet(hub, _) => DebtTooLarge(Debt(w, account, hub))
    case RepayWithCollateral(from, hub, _) => DebtTooLarge(Debt(w, account, hub)) || BusyHub(w, account, from)
    case WithdrawToWallet(hub, _) => BusyHub(w, account, hub)
    case SwapFromWallet(tokenIn, tokenOut, amount, _) => SwapOverflows(env, w, tokenIn, tokenOut, Sold(amount, Balance(w, tokenIn, user)))
    case WithdrawAndSwap(hub, tokenOut, amount, _) =>
      || BusyHub(w, account, hub)
      || (Drawn(w, account, hub, amount) >= MIN_MOVE && SwapOverflows(env, w, env.usdc, tokenOut, Drawn(w, account, hub, amount)))
  }

  lemma PlanSwapPanicsExactly(env: Settings, w: World, tokenIn: Address, tokenOut: Address, amount: int, slip: nat, hub: Option<nat>)
    requires slip <= 10_000
    ensures PlanSwap(env, w, tokenIn, tokenOut, amount, slip, hub).Panic? <==> SwapOverflows(env, w, tokenIn, tokenOut, amount)
    ensures PlanSwap(env, w, tokenIn, tokenOut, amount, slip, hub).Panic?
            ==> PlanSwap(env, w, tokenIn, tokenOut, amount, slip, hub) == Panic(Overflow)
  {
    match (Price(env, w, tokenIn), Price(env, w, tokenOut))
    case (Some((priceIn, decIn)), Some((priceOut, decOut))) =>
      if amount > 0 {
        UsdValuePanicsExactly(amount, decIn, priceIn);
        if UsdValue(amount, decIn, priceIn).Ok? {
          UsdValueIsExact(amount, decIn, priceIn);
          SwapFloorPanicsExactly(amount, decIn, priceIn, decOut, priceOut, slip);
        }
      }
    case _ =>
  }

  lemma DrawPanicsExactly(w: World, account: nat, hub: nat, amount: Amount)
    requires Sane(w) && HubFits(HubOf(w, hub)) && AmountOk(amount)
    ensures WithdrawableIn(w, account, hub).Panic? <==> BusyHub(w, account, hub)
    ensures WithdrawableIn(w, account, hub).Panic? ==> WithdrawableIn(w, account, hub) == Panic(Overflow)
    ensures WithdrawableIn(w, account, hub).Ok? ==> Resolve(amount, WithdrawableIn(w, account, hub).value) == Ok(Drawn(w, account, hub, amount))
  {
    WithdrawableInPanicsExactly(w, account, hub);
    if WithdrawableIn(w, account, hub).Ok? {
      ResolvedDraw(w, account, hub, amount);
    }
  }

  lemma RepayPanicsExactly(w: World, account: nat, hub: nat, amount: Amount)
    requires Sane(w) && AmountOk(amount)
    ensures DebtBase(Debt(w, account, hub)).Panic? <==> DebtTooLarge(Debt(w, account, hub))
    ensures DebtBase(Debt(w, account, hub)).Panic? ==> DebtBase(Debt(w, account, hub)) == Panic(Overflow)
    ensures DebtBase(Debt(w, account, hub)).Ok? ==> Resolve(amount, DebtBase(Debt(w, account, hub)).value).Ok?
  {
    DebtBasePanicsExactly(Debt(w, account, hub));
    if DebtBase(Debt(w, account, hub)).Ok? {
      DebtBaseIsAmount(Debt(w, account, hub), amount);
    }
  }

  /** Planning a valid action panics exactly for those figures, and then with an overflow. */
  lemma PlanPanicsExactly(env: Settings, w: World, user: Address, account: nat, a: Action)
    requires Sane(w) && FiguresFit(w) && ActionOk(a)
    ensures PlanFor(env, w, user, account, a).Panic? <==> PlanOverflows(env, w, user, account, a)
    ensures PlanFor(env, w, user, account, a).Panic? ==> PlanFor(env, w, user, account, a) == Panic(Overflow)
  {
    match a
    case MoveSupply(from, _, amount) => DrawPanicsExactly(w, account, from, amount);
    case WithdrawToWallet(hub, amount) => DrawPanicsExactly(w, account, hub, amount);
    case SupplyFromWallet(_, amount) =>
      FloorGrainIs(Balance(w, env.usdc, user));
      ResolveIs(amount, FloorGrain(Balance(w, env.usdc, user)));
    case RepayFromWallet(hub, amount) => RepayPanicsExactly(w, account, hub, amount);
    case RepayWithCollateral(from, hub, amount) =>
      RepayPanicsExactly(w, account, hub, amount);
      WithdrawableInPanicsExactly(w, account, from);
    case SwapFromWallet(tokenIn, tokenOut, amount, slip) =>
      WantIsExact(amount, Balance(w, tokenIn, user));
      PlanSwapPanicsExactly(env, w, tokenIn, tokenOut, Sold(amount, Balance(w, tokenIn, user)), slip, None);
    case WithdrawAndSwap(hub, tokenOut, amount, slip) =>
      DrawPanicsExactly(w, account, hub, amount);
      PlanSwapPanicsExactly(env, w, env.usdc, tokenOut, Drawn(w, account, hub, amount), slip, Some(hub));
  }

  // ---- What it does to a tick ----

  /** Basis points are 32-bit numbers. */
  predicate ConditionFits(c: Condition) {
    c.SupplyRateGap? ==> c.minBps <= U32_MAX
  }

  predicate ConditionsFit(ap: Autopilot) {
    forall r, c :: r in ap.rules && c in r.conditions ==> ConditionFits(c)
  }

  lemma ConditionReads(env: Settings, w: World, user: Address, account: nat, c: Condition)
    requires FiguresFit(w) && ConditionFits(c)
    ensures Evaluate(env, w, user, account, c).Ok?
  {
    if c.SupplyRateGap? {
      assert HubFits(HubOf(w, c.over)) && HubFits(HubOf(w, c.under));
      MulMonotone(BPS_RAY, c.minBps, U32_MAX);
    }
  }

  lemma {:induction false} ConditionsRead(env: Settings, w: World, user: Address, account: nat, cs: seq<Condition>, n: nat)
    requires FiguresFit(w) && n <= |cs| && (forall c :: c in cs ==> ConditionFits(c))
    ensures EvaluateFirst(env, w, user, account, cs, n).Ok?
  {
    if n > 0 {
      ConditionsRead(env, w, user, account, cs, n - 1);
      ConditionReads(env, w, user, account, cs[n - 1]);
    }
  }

  /** Rule `at` is off cooldown and holds, and planning it overflows. */
  predicate Stuck(env: Settings, s: Storage, w: World, user: Address, id: nat, ap: Autopilot, at: nat)
    requires at < |ap.rules|
  {
    var r := ap.rules[at];
    var read := EvaluateRule(env, w, user, ap.accountId, r);
    && Ready(LastFired(s, user, id, at), w.ledger, r.cooldown)
    && read.Ok? && read.value.0
    && PlanOverflows(env, w, user, ap.accountId, r.action)
  }

  lemma ConsiderPanicsExactly(env: Settings, s: Storage, w: World, user: Address, id: nat, ap: Autopilot, i: nat)
    requires Sane(w) && FiguresFit(w) && AutopilotOk(ap) && ConditionsFit(ap) && i < |ap.rules|
    ensures Consider(env, s, w, user, id, ap, i).Panic? <==> Stuck(env, s, w, user, id, ap, i)
    ensures Consider(env, s, w, user, id, ap, i).Panic? ==> Consider(env, s, w, user, id, ap, i) == Panic(Overflow)
  {
    var r := ap.rules[i];
    assert r in ap.rules;
    ConditionsRead(env, w, user, ap.accountId, r.conditions, |r.conditions|);
    PlanPanicsExactly(env, w, user, ap.accountId, r.action);
  }

  /** A rule is stuck and every earlier one has nothing to do. */
  ghost predicate Blocked(env: Settings, s: Storage, w: World, user: Address, id: nat, ap: Autopilot) {
    exists at :: 0 <= at < |ap.rules| && Stuck(env, s, w, user, id, ap, at) && forall j :: 0 <= j < at ==> Idle(env, s, w, user, id, ap, j)
  }

  lemma ChoosePanicsExactly(env: Settings, s: Storage, w: World, user: Address, id: nat, ap: Autopilot)
    requires Sane(w) && FiguresFit(w) && AutopilotOk(ap) && ConditionsFit(ap)
    ensures Choose(env, s, w, user, id, ap).Panic? <==> Blocked(env, s, w, user, id, ap)
    ensures Choose(env, s, w, user, id, ap).Panic? ==> Choose(env, s, w, user, id, ap) == Panic(Overflow)
  {
    var verdicts := Verdicts(env, s, w, user, id, ap);
    forall j | 0 <= j < |ap.rules|
      ensures verdicts[j] == Ok(None) <==> Idle(env, s, w, user, id, ap, j)
      ensures verdicts[j].Panic? <==> Stuck(env, s, w, user, id, ap, j)
      ensures verdicts[j].Panic? ==> verdicts[j] == Panic(Overflow)
    {
      ConsiderMeans(env, s, w, user, id, ap, j);
      ConsiderPanicsExactly(env, s, w, user, id, ap, j);
    }
    FirstVerdictIs(verdicts, 0);
    if Blocked(env, s, w, user, id, ap) {
      var at :| 0 <= at < |ap.rules| && Stuck(env, s, w, user, id, ap, at) && forall j :: 0 <= j < at ==> Idle(env, s, w, user, id, ap, j);
      FirstVerdictAt(verdicts, 0, at);
    }
  }

  /**
    * `next_action` panics exactly when a due rule's figures overflow before any rule with something to do; then every tick
    * panics too, so the rules behind it never run.
    */
  lemma NextActionPanicsExactly(ext: Outside, env: Settings, s: Storage, w: World, user: Address, id: nat, route: Option<Route>)
    requires Sane(w) && FiguresFit(w) && (user, id) in s.autopilots
    requires AutopilotOk(s.autopilots[(user, id)]) && ConditionsFit(s.autopilots[(user, id)])
    ensures NextActionOf(env, s, w, user, id).Panic? <==> Blocked(env, s, w, user, id, s.autopilots[(user, id)])
    ensures Blocked(env, s, w, user, id, s.autopilots[(user, id)]) ==>
              NextActionOf(env, s, w, user, id) == Panic(Overflow) && TickOf(ext, env, s, w, user, id, route) == Panic(Overflow)
  {
    ChoosePanicsExactly(env, s, w, user, id, s.autopilots[(user, id)]);
  }

  // ---- The busy hub ----

  /** The hub an action draws on. */
  function DrawsOn(a: Action): Option<nat> {
    match a
    case MoveSupply(from, _, _) => Some(from)
    case RepayWithCollateral(from, _, _) => Some(from)
    case WithdrawToWallet(hub, _) => Some(hub)
    case WithdrawAndSwap(hub, _, _, _) => Some(hub)
    case _ => None
  }

  lemma BusyHubStopsThePlan(env: Settings, w: World, user: Address, account: nat, a: Action)
    requires DrawsOn(a).Some? && BusyHub(w, account, DrawsOn(a).value) && HubFits(HubOf(w, DrawsOn(a).value))
    ensures PlanFor(env, w, user, account, a) == Panic(Overflow)
  {
    WithdrawableInPanicsExactly(w, account, DrawsOn(a).value);
  }

  /** Whatever the rest of the world looks like, a due rule that draws on a busy hub stops the tick. */
  lemma BusyHubBlocksTheTick(ext: Outside, env: Settings, s: Storage, w: World, user: Address, id: nat, route: Option<Route>, at: nat)
    requires (user, id) in s.autopilots && at < |s.autopilots[(user, id)].rules|
    requires forall j :: 0 <= j < at ==> Idle(env, s, w, user, id, s.autopilots[(user, id)], j)
    requires var r := s.autopilots[(user, id)].rules[at];
             && Ready(LastFired(s, user, id, at), w.ledger, r.cooldown)
             && EvaluateRule(env, w, user, s.autopilots[(user, id)].accountId, r).Ok?
             && EvaluateRule(env, w, user, s.autopilots[(user, id)].accountId, r).value.0
    requires var a := s.autopilots[(user, id)].rules[at].action;
             && DrawsOn(a).Some?
             && BusyHub(w, s.autopilots[(user, id)].accountId, DrawsOn(a).value) && HubFits(HubOf(w, DrawsOn(a).value))
    ensures TickOf(ext, env, s, w, user, id, route) == Panic(Overflow)
  {
    var ap := s.autopilots[(user, id)];
    BusyHubStopsThePlan(env, w, user, ap.accountId, ap.rules[at].action);
    var verdicts := Verdicts(env, s, w, user, id, ap);
    forall j | 0 <= j < at ensures verdicts[j] == Ok(None) {
      ConsiderMeans(env, s, w, user, id, ap, j);
    }
    assert verdicts[at] == Panic(Overflow);
    FirstVerdictAt(verdicts, 0, at);
  }

  /** One rule that is always due: the wallet's idle USDC is at least nothing. */
  function AlwaysDue(a: Action): Rule {
    Rule([IdleBalance(AtOrAbove, 0)], true, a, 1)
  }

  /** A unit of collateral in a hub that has lent out 17014.1183461 USDC of 50000 under a ceiling of 90%. */
  function BusyWorld(account: nat, hub: nat): World {
    World(1, 1, map[], map[account := Position(map[hub := 1], map[], I128_MAX)],
          map[hub := Hub(0, 329_858_816_539, 500_000_000_000, 170_141_183_461, 9 * (RAY / 10))], map[], map[])
  }

  /**
    * It can happen: any valid drawing action whose tokens the router knows can be stored, and in this world its tick, and
    * `next_action`, panic on an overflow for every controller and route.
    */
  lemma BusyHubHappens(env: Settings, user: Address, id: nat, account: nat, a: Action, ext: Outside, route: Option<Route>)
    requires ActionOk(a) && DrawsOn(a).Some? && RuleTokens(env, AlwaysDue(a)).None?
    ensures var stored := Set(env, EMPTY, user, id, Autopilot(account, [AlwaysDue(a)]));
            var w := BusyWorld(account, DrawsOn(a).value);
            && stored.Ok? && Sane(w) && FiguresFit(w)
            && NextActionOf(env, stored.value, w, user, id) == Panic(Overflow)
            && TickOf(ext, env, stored.value, w, user, id, route) == Panic(Overflow)
  {
    var ap := Autopilot(account, [AlwaysDue(a)]);
    var rules := ap.rules;
    assert rules[1..] == [];
    assert TokensKnown(env, rules) == None;
    var s := Set(env, EMPTY, user, id, ap).value;
    var w := BusyWorld(account, DrawsOn(a).value);
    AlwaysDueHolds(env, w, user, account, a);
    BusyHubBlocksTheTick(ext, env, s, w, user, id, route, 0);
    BusyHubStopsThePlan(env, w, user, account, a);
    assert Verdicts(env, s, w, user, id, ap)[0] == Panic(Overflow);
  }

  lemma AlwaysDueHolds(env: Settings, w: World, user: Address, account: nat, a: Action)
    requires Balance(w, env.usdc, user) >= 0
    ensures EvaluateRule(env, w, user, account, AlwaysDue(a)).Ok? && EvaluateRule(env, w, user, account, AlwaysDue(a)).value.0
  {
    var cs := [IdleBalance(AtOrAbove, 0)];
    assert EvaluateFirst(env, w, user, account, cs, 0) == Ok([]);
    assert Evaluate(env, w, user, account, cs[0]) == Ok(ConditionState(true, Balance(w, env.usdc, user)));
    assert EvaluateFirst(env, w, user, account, cs, 1) == Ok([] + [ConditionState(true, Balance(w, env.usdc, user))]);
  }
}
