/**
  * The derived permissions against the calls a tick really makes: every context of every plan passes the policy, ten ticks
  * always fit the default rate limit, and every allowed call is used by some rule's plan.
  */
module Leash {
  import opened Basics
  import opened MachineInt
  import opened RouterMath
  import RouterTypes
  import opened Reads
  import opened AgentPolicy
  import opened Permissions

  // ---- The authorization tree of a tick ----

  function TickContext(c: Contracts, user: Address): Context {
    Contract(c.router, TICK, [AddressVal(user), Opaque, Opaque])
  }

  function WithdrawContext(c: Contracts, user: Address, account: nat): Context {
    Contract(c.controller, WITHDRAW, [AddressVal(user), U64Val(account), Opaque, AddressVal(user)])
  }

  function SupplyContexts(c: Contracts, user: Address, account: nat): seq<Context> {
    [Contract(c.controller, SUPPLY, [AddressVal(user), U64Val(account), Opaque, Opaque]), TransferContext(c.usdc, user, c.pool)]
  }

  function RepayContexts(c: Contracts, user: Address, account: nat): seq<Context> {
    [Contract(c.controller, REPAY, [AddressVal(user), U64Val(account), Opaque]), TransferContext(c.usdc, user, c.pool)]
  }

  function TransferContext(token: Address, user: Address, to: Address): Context {
    Contract(token, TRANSFER, [AddressVal(user), AddressVal(to), Opaque])
  }

  function SwapContexts(aggregator: Address, user: Address, tokenIn: Address): seq<Context> {
    [Contract(aggregator, EXECUTE_STRATEGY, [AddressVal(user), Opaque, Opaque]), TransferContext(tokenIn, user, aggregator)]
  }

  /** The contexts of one tick in the order the account sees them: the tick, then what its plan calls, depth first. */
  function Tree(c: Contracts, user: Address, account: nat, plan: Option<Plan>): seq<Context>
    requires plan.Some? && plan.value.Swap? ==> c.aggregator.Some?
  {
    [TickContext(c, user)] +
    match plan
    case None => []
    case Some(Move(_, _, _)) => [WithdrawContext(c, user, account)] + SupplyContexts(c, user, account)
    case Some(Supply(_, _)) => SupplyContexts(c, user, account)
    case Some(RepayWallet(_, _)) => RepayContexts(c, user, account)
    case Some(RepayCollateral(_, _, _)) => [WithdrawContext(c, user, account)] + RepayContexts(c, user, account)
    case Some(Withdraw(_, _)) => [WithdrawContext(c, user, account)]
    case Some(Swap(tokenIn, _, _, _, hub)) =>
      (if hub.Some? then [WithdrawContext(c, user, account)] else []) + SwapContexts(c.aggregator.value, user, tokenIn)
  }

  /** The plans an action can resolve to. */
  predicate PlanOf(c: Contracts, a: RouterTypes.Action, p: Plan) {
    match a
    case MoveSupply(_, _, _) => p.Move?
    case SupplyFromWallet(_, _) => p.Supply?
    case RepayFromWallet(_, _) => p.RepayWallet?
    case RepayWithCollateral(_, _, _) => p.RepayCollateral?
    case WithdrawToWallet(_, _) => p.Withdraw?
    case SwapFromWallet(tokenIn, _, _, _) => p.Swap? && p.tokenIn == tokenIn && p.withdrawHub.None?
    case WithdrawAndSwap(_, _, _, _) => p.Swap? && p.tokenIn == c.usdc && p.withdrawHub.Some?
  }

  /** The contracts the SDK derives permissions for are the ones the router is set up with. */
  predicate SameContracts(c: Contracts, env: RouterTypes.Settings) {
    c.router == env.self && c.controller == env.controller && c.pool == env.pool && c.usdc == env.usdc && c.aggregator == env.aggregator
  }

  lemma PlansArePlansOf(c: Contracts, env: RouterTypes.Settings, w: World, user: Address, account: nat, a: RouterTypes.Action, p: Plan)
    requires SameContracts(c, env) && PlanFor(env, w, user, account, a) == Ok(Some(p))
    ensures PlanOf(c, a, p)
  {
  }

  // ---- Enough ----

  /** Calls already counted against the limit at ledger `now`. */
  function Spent(s: Store, key: Key): nat {
    if key in s.windows then s.windows[key].calls else 0
  }

  /** Each context enforced in turn; the first rejection rejects all of them. */
  function EnforceAll(s: Store, contexts: seq<Context>, ruleId: nat, account: Address, now: nat): Outcome<Store>
    decreases |contexts|
  {
    if contexts == [] then Accepted(s)
    else
      var after :- Enforce(s, contexts[0], 1, ruleId, account, now);
      EnforceAll(after, contexts[1..], ruleId, account, now)
  }

  /** A context the parameters let through once a session is open. */
  predicate Permitted(p: Params, context: Context, user: Address) {
    context.Contract? && (context.contract, context.fnName) in p.allowedCalls && CheckArgs(p, context.fnName, context.args, user).Accepted?
  }

  predicate InSession(s: Store, user: Address, router: Address, now: nat) {
    user in s.sessions && s.sessions[user] == Session(router, now)
  }

  lemma {:induction false} PermittedAllPass(s: Store, contexts: seq<Context>, ruleId: nat, user: Address, router: Address, now: nat)
    requires (user, ruleId) in s.params && InSession(s, user, router, now)
    requires var p := s.params[(user, ruleId)];
             && p.windowLedgers > 0
             && (forall i :: 0 <= i < |contexts| ==> Permitted(p, contexts[i], user) && contexts[i].fnName != TICK)
             && Spent(s, (user, ruleId)) + |contexts| <= p.maxCallsPerWindow
    ensures var r := EnforceAll(s, contexts, ruleId, user, now);
            && r.Accepted? && r.value.params == s.params
            && InSession(r.value, user, router, now)
            && Spent(r.value, (user, ruleId)) <= Spent(s, (user, ruleId)) + |contexts|
    decreases |contexts|
  {
    if contexts != [] {
      var after := Enforce(s, contexts[0], 1, ruleId, user, now).value;
      PermittedAllPass(after, contexts[1..], ruleId, user, router, now);
    }
  }

  /** The parameters the SDK installs: the autopilot's account, what its rules use, and a rate limit. */
  function Installed(p: AgentPermissions, account: nat, maxCalls: nat, window: nat): Params {
    Params(account, p.allowedCalls, p.transferRecipients, maxCalls, window)
  }

  lemma ContextsPermitted(c: Contracts, rules: seq<RouterTypes.Rule>, granted: AgentPermissions, a: RouterTypes.Action, plan: Plan,
                          user: Address, account: nat, maxCalls: nat, window: nat, i: nat)
    requires Grants(granted, c, rules) && PlanOf(c, a, plan) && (exists r :: r in rules && r.action == a)
    requires plan.Swap? ==> c.aggregator.Some?
    requires 0 < i < |Tree(c, user, account, Some(plan))|
    ensures var context := Tree(c, user, account, Some(plan))[i];
            Permitted(Installed(granted, account, maxCalls, window), context, user) && context.fnName != TICK
            && Makes(c, a, (context.contract, context.fnName))
  {
    var r :| r in rules && r.action == a;
    var context := Tree(c, user, account, Some(plan))[i];
    assert Makes(c, r.action, (context.contract, context.fnName));
    if context.fnName == TRANSFER {
      var to := context.args[1].address;
      assert Pays(c, r.action, to);
      assert to in granted.transferRecipients;
    }
  }

  /**
    * Enough: installed with what the SDK derives, the policy accepts the whole tree of every plan of every rule, tick first,
    * while the window has room for it, and leaves open the session that this tick's router can close.
    */
  lemma PermissionsAreEnough(c: Contracts, rules: seq<RouterTypes.Rule>, granted: AgentPermissions, plan: Option<Plan>,
                             s: Store, ruleId: nat, user: Address, account: nat, maxCalls: nat, window: nat, now: nat)
    requires Grants(granted, c, rules) && window > 0
    requires plan.Some? ==> exists r :: r in rules && PlanOf(c, r.action, plan.value)
    requires plan.Some? && plan.value.Swap? ==> c.aggregator.Some?
    requires (user, ruleId) in s.params && s.params[(user, ruleId)] == Installed(granted, account, maxCalls, window)
    requires Spent(s, (user, ruleId)) + |Tree(c, user, account, plan)| <= maxCalls
    ensures var r := EnforceAll(s, Tree(c, user, account, plan), ruleId, user, now);
            && r.Accepted? && r.value.params == s.params
            && InSession(r.value, user, c.router, now)
            && EndSession(r.value.sessions, user, c.router).Accepted?
            && Spent(r.value, (user, ruleId)) <= Spent(s, (user, ruleId)) + |Tree(c, user, account, plan)|
    ensures |Tree(c, user, account, plan)| <= 4
  {
    var tree := Tree(c, user, account, plan);
    assert tree[0] == TickContext(c, user);
    var after := Enforce(s, tree[0], 1, ruleId, user, now).value;
    forall i | 0 <= i < |tree[1..]|
      ensures Permitted(Installed(granted, account, maxCalls, window), tree[1..][i], user) && tree[1..][i].fnName != TICK
    {
      var r :| r in rules && PlanOf(c, r.action, plan.value);
      ContextsPermitted(c, rules, granted, r.action, plan.value, user, account, maxCalls, window, i + 1);
    }
    PermittedAllPass(after, tree[1..], ruleId, user, c.router, now);
  }

  /** A run of ticks, each with its plan and ledger; the router closes the session after each one. */
  datatype TickRun = TickRun(ledger: nat, plan: Option<Plan>)

  function EnforceTicks(c: Contracts, s: Store, ticks: seq<TickRun>, ruleId: nat, user: Address, account: nat): Outcome<Store>
    requires forall i :: 0 <= i < |ticks| ==> ticks[i].plan.Some? && ticks[i].plan.value.Swap? ==> c.aggregator.Some?
    decreases |ticks|
  {
    if ticks == [] then Accepted(s)
    else
      var after :- EnforceAll(s, Tree(c, user, account, ticks[0].plan), ruleId, user, ticks[0].ledger);
      var sessions :- EndSession(after.sessions, user, c.router);
      EnforceTicks(c, after.(sessions := sessions), ticks[1..], ruleId, user, account)
  }

  /** Four calls each: as many ticks always pass as the limit holds fours, ten of them under the default of 40. */
  lemma {:induction false} TicksFit(c: Contracts, rules: seq<RouterTypes.Rule>, granted: AgentPermissions, ticks: seq<TickRun>,
                                    s: Store, ruleId: nat, user: Address, account: nat, maxCalls: nat, window: nat)
    requires Grants(granted, c, rules) && window > 0
    requires forall i :: 0 <= i < |ticks| && ticks[i].plan.Some? ==> exists r :: r in rules && PlanOf(c, r.action, ticks[i].plan.value)
    requires forall i :: 0 <= i < |ticks| ==> ticks[i].plan.Some? && ticks[i].plan.value.Swap? ==> c.aggregator.Some?
    requires (user, ruleId) in s.params && s.params[(user, ruleId)] == Installed(granted, account, maxCalls, window)
    requires Spent(s, (user, ruleId)) + 4 * |ticks| <= maxCalls
    ensures EnforceTicks(c, s, ticks, ruleId, user, account).Accepted?
    decreases |ticks|
  {
    if ticks != [] {
      var tree := Tree(c, user, account, ticks[0].plan);
      PermissionsAreEnough(c, rules, granted, ticks[0].plan, s, ruleId, user, account, maxCalls, window, ticks[0].ledger);
      var after := EnforceAll(s, tree, ruleId, user, ticks[0].ledger).value;
      var closed := after.(sessions := EndSession(after.sessions, user, c.router).value);
      forall i | 0 <= i < |ticks[1..]| && ticks[1..][i].plan.Some?
        ensures exists r :: r in rules && PlanOf(c, r.action, ticks[1..][i].plan.value)
      {
        assert ticks[1..][i] == ticks[i + 1];
      }
      TicksFit(c, rules, granted, ticks[1..], closed, ruleId, user, account, maxCalls, window);
    }
  }

  // ---- Not more ----

  ghost predicate Calls(c: Contracts, user: Address, account: nat, plan: Plan, call: (Address, Symbol))
    requires plan.Swap? ==> c.aggregator.Some?
  {
    var tree := Tree(c, user, account, Some(plan));
    exists i :: 0 <= i < |tree| && tree[i].Contract? && call == (tree[i].contract, tree[i].fnName)
  }

  lemma MadeCallIsInTree(c: Contracts, a: RouterTypes.Action, plan: Plan, call: (Address, Symbol), user: Address, account: nat)
    requires Makes(c, a, call) && PlanOf(c, a, plan) && (plan.Swap? ==> c.aggregator.Some?)
    ensures Calls(c, user, account, plan, call)
  {
    var tree := Tree(c, user, account, Some(plan));
    if |tree| > 1 && call == (tree[1].contract, tree[1].fnName) {
    } else if |tree| > 2 && call == (tree[2].contract, tree[2].fnName) {
    } else {
      assert |tree| > 3 && call == (tree[3].contract, tree[3].fnName);
    }
  }

  /** A world with plenty of everything: 100,000 USDC in the position and the hub, in debt, and in the wallet. */
  const PLENTY: int := 1_000_000_000_000

  function PlentifulWorld(user: Address, account: nat, hub: nat, token: Address): World {
    World(1, 1, map[(token, user) := PLENTY], map[account := Position(map[hub := PLENTY], map[hub := PLENTY], I128_MAX)],
          map[hub := Hub(0, 10 * PLENTY, 10 * PLENTY, 0, 0)], map[], map[])
  }

  function Priced(c: Contracts, feeds: map<Address, RouterTypes.Feed>): RouterTypes.Settings {
    RouterTypes.Settings(c.router, c.controller, c.pool, c.usdc, c.router, 0, feeds, c.aggregator, None)
  }

  /** The action resolves to a plan in the given settings and world. */
  ghost predicate Plans(c: Contracts, env: RouterTypes.Settings, w: World, user: Address, account: nat, a: RouterTypes.Action, p: Plan) {
    SameContracts(c, env) && PlanFor(env, w, user, account, a) == Ok(Some(p))
  }

  lemma PlentyResolves(amount: Amount, base: int)
    requires AmountOk(amount) && 100_000_000_000 <= base <= I128_MAX
    ensures Resolve(amount, base).Ok? && MIN_MOVE <= Resolve(amount, base).value <= base
  {
    WantIsExact(amount, base);
    ResolveIs(amount, base);
    if amount.Percent? {
      MulMonotone(base, 1, amount.bps);
      DivMonotone(base, base * amount.bps, 10_000);
    }
    FloorGrainIs(Want(amount, base).value);
  }

  /** Every action the router accepts resolves to a plan in some settings and world. */
  lemma EveryActionPlans(c: Contracts, user: Address, account: nat, a: RouterTypes.Action)
    requires RouterTypes.ActionOk(a)
    ensures exists env, w, p :: Plans(c, env, w, user, account, a, p)
  {
    match a
    case SwapFromWallet(tokenIn, tokenOut, amount, slip) => WalletSwapPlans(c, user, account, tokenIn, tokenOut, amount, slip);
    case WithdrawAndSwap(hub, tokenOut, amount, slip) => PositionSwapPlans(c, user, account, hub, tokenOut, amount, slip);
    case _ => LendingPlans(c, user, account, a);
  }

  lemma LendingPlans(c: Contracts, user: Address, account: nat, a: RouterTypes.Action)
    requires RouterTypes.ActionOk(a) && !a.SwapFromWallet? && !a.WithdrawAndSwap?
    ensures exists env, w, p :: Plans(c, env, w, user, account, a, p)
  {
    if a.SupplyFromWallet? {
      SupplyPlans(c, user, account, a);
    } else if a.RepayFromWallet? {
      RepayPlans(c, user, account, a);
    } else {
      DrawingPlans(c, user, account, a);
    }
  }

  lemma SupplyPlans(c: Contracts, user: Address, account: nat, a: RouterTypes.Action)
    requires RouterTypes.ActionOk(a) && a.SupplyFromWallet?
    ensures exists env, w, p :: Plans(c, env, w, user, account, a, p)
  {
    var env, w := Priced(c, map[]), PlentifulWorld(user, account, a.hub, c.usdc);
    PlentyResolves(a.amount, PLENTY);
    assert Plans(c, env, w, user, account, a, PlanFor(env, w, user, account, a).value.value);
  }

  lemma RepayPlans(c: Contracts, user: Address, account: nat, a: RouterTypes.Action)
    requires RouterTypes.ActionOk(a) && a.RepayFromWallet?
    ensures exists env, w, p :: Plans(c, env, w, user, account, a, p)
  {
    var env, w := Priced(c, map[]), PlentifulWorld(user, account, a.hub, c.usdc);
    DebtBaseCovers(PLENTY);
    PlentyResolves(a.amount, DebtBase(PLENTY).value);
    SnappedStays(PLENTY);
    assert Plans(c, env, w, user, account, a, PlanFor(env, w, user, account, a).value.value);
  }

  lemma DrawingPlans(c: Contracts, user: Address, account: nat, a: RouterTypes.Action)
    requires RouterTypes.ActionOk(a) && (a.MoveSupply? || a.WithdrawToWallet? || a.RepayWithCollateral?)
    ensures exists env, w, p :: Plans(c, env, w, user, account, a, p)
  {
    var env := Priced(c, map[]);
    var hub := if a.MoveSupply? then a.from else if a.RepayWithCollateral? then a.withdrawHub else a.hub;
    var w := PlentifulWorld(user, account, hub, c.usdc);
    if a.RepayWithCollateral? {
      w := w.(positions := map[account := Position(map[hub := PLENTY], map[a.repayHub := PLENTY], I128_MAX)]);
      DebtBaseCovers(PLENTY);
      PlentyResolves(a.amount, DebtBase(PLENTY).value);
    }
    PlentyResolves(a.amount, PLENTY);
    assert Plans(c, env, w, user, account, a, PlanFor(env, w, user, account, a).value.value);
  }

  lemma DollarSwapPlans(env: RouterTypes.Settings, w: World, tokenIn: Address, tokenOut: Address, amount: int, slip: nat, priceOut: int, hub: Option<nat>)
    requires slip <= 2_000 && 1 <= amount <= PLENTY
    requires priceOut == 1 || (priceOut == PRICE_ONE && amount >= MIN_MOVE)
    requires Price(env, w, tokenIn) == Some((PRICE_ONE, 0)) && Price(env, w, tokenOut) == Some((priceOut, 0))
    ensures var planned := PlanSwap(env, w, tokenIn, tokenOut, amount, slip, hub);
            planned.Ok? && planned.value.Some?
  {
    assert UsdValue(amount, 0, PRICE_ONE) == Ok(amount * PRICE_ONE);
    DollarFloor(amount, slip, priceOut);
  }

  lemma DollarFloor(amount: int, slip: nat, priceOut: int)
    requires slip <= 2_000 && 1 <= amount <= PLENTY
    requires priceOut == 1 || (priceOut == PRICE_ONE && amount >= MIN_MOVE)
    ensures SwapFloor(amount, 0, PRICE_ONE, 0, priceOut, slip).Ok? && SwapFloor(amount, 0, PRICE_ONE, 0, priceOut, slip).value > 0
  {
    assert UsdValue(amount, 0, PRICE_ONE) == Ok(amount * PRICE_ONE);
    var out := if priceOut == 1 then amount * PRICE_ONE else amount;
    var keep := 10_000 - slip;
    assert TruncDiv(amount * PRICE_ONE, priceOut) == out;
    MulMonotone(out / 10_000, 8_000, keep);
    MulMonotone(out / 10_000, keep, 10_000);
    MulMonotone(out % 10_000, 0, keep);
    MulMonotone(out % 10_000, keep, 10_000);
    DivNonNegative(out % 10_000 * keep, 10_000);
  }

  lemma PositionSwapPlans(c: Contracts, user: Address, account: nat, hub: nat, tokenOut: Address, amount: Amount, slip: nat)
    requires AmountOk(amount) && slip <= 2_000
    ensures exists env, w, p :: Plans(c, env, w, user, account, RouterTypes.WithdrawAndSwap(hub, tokenOut, amount, slip), p)
  {
    var dollar := RouterTypes.Feed(RouterTypes.FixedPrice(PRICE_ONE), 0);
    var env, w := Priced(c, map[c.usdc := dollar, tokenOut := dollar]), PlentifulWorld(user, account, hub, c.usdc);
    PlentyResolves(amount, PLENTY);
    var out := Resolve(amount, PLENTY).value;
    DollarSwapPlans(env, w, c.usdc, tokenOut, out, slip, PRICE_ONE, Some(hub));
    assert WithdrawableIn(w, account, hub) == Ok(PLENTY);
    assert Plans(c, env, w, user, account, RouterTypes.WithdrawAndSwap(hub, tokenOut, amount, slip),
                 PlanSwap(env, w, c.usdc, tokenOut, out, slip, Some(hub)).value.value);
  }

  lemma WalletSwapPlans(c: Contracts, user: Address, account: nat, tokenIn: Address, tokenOut: Address, amount: Amount, slip: nat)
    requires SwapAmountOk(amount) && slip <= 2_000 && tokenIn != tokenOut
    ensures exists env, w, p :: Plans(c, env, w, user, account, RouterTypes.SwapFromWallet(tokenIn, tokenOut, amount, slip), p)
  {
    var dollar, dust := RouterTypes.Feed(RouterTypes.FixedPrice(PRICE_ONE), 0), RouterTypes.Feed(RouterTypes.FixedPrice(1), 0);
    var env, w := Priced(c, map[tokenIn := dollar, tokenOut := dust]), PlentifulWorld(user, account, 0, tokenIn);
    WantIsExact(amount, PLENTY);
    var want := Want(amount, PLENTY).value;
    PercentOfPlenty(amount);
    DollarSwapPlans(env, w, tokenIn, tokenOut, want, slip, 1, None);
    assert Plans(c, env, w, user, account, RouterTypes.SwapFromWallet(tokenIn, tokenOut, amount, slip),
                 PlanSwap(env, w, tokenIn, tokenOut, want, slip, None).value.value);
  }

  lemma PercentOfPlenty(amount: Amount)
    requires SwapAmountOk(amount)
    ensures Want(amount, PLENTY).Ok? && 1 <= Want(amount, PLENTY).value <= PLENTY
  {
    WantIsExact(amount, PLENTY);
  }

  /**
    * Not more: each allowed call other than the tick is in the authorization tree of a plan that one of the rules resolves
    * to in some world.
    */
  lemma PermissionsAreMinimal(c: Contracts, ap: RouterTypes.Autopilot, granted: AgentPermissions, call: (Address, Symbol), user: Address)
    requires RouterTypes.AutopilotOk(ap) && Grants(granted, c, ap.rules) && (Swaps(ap) ==> c.aggregator.Some?)
    requires call in granted.allowedCalls && call != (c.router, TICK)
    ensures exists r, env, w, p :: r in ap.rules && Plans(c, env, w, user, ap.accountId, r.action, p)
                                   && (p.Swap? ==> c.aggregator.Some?) && Calls(c, user, ap.accountId, p, call)
  {
    var r :| r in ap.rules && Makes(c, r.action, call);
    EveryActionPlans(c, user, ap.accountId, r.action);
    var env, w, p :| Plans(c, env, w, user, ap.accountId, r.action, p);
    PlansArePlansOf(c, env, w, user, ap.accountId, r.action, p);
    MadeCallIsInTree(c, r.action, p, call, user, ap.accountId);
  }
}
