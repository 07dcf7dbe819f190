/**
  * What a run does to the user's money when the lending contracts are honest: nothing is created or lost, nothing goes
  * negative, and no hub is left past its limits (contracts/koul_router/src/lib.rs:624-647, 686-766).
  */
module Conservation {
  import opened Basics
  import opened MachineInt
  import opened RouterMath
  import opened RouterTypes
  import opened Reads
  import opened Engine
  import opened Sums

  // ---- An honest lending protocol ----

  function Credit(w: World, token: Address, holder: Address, delta: int): World {
    w.(balances := w.balances[(token, holder) := Balance(w, token, holder) + delta])
  }

  function ChangeCollateral(w: World, account: nat, hub: nat, delta: int): World {
    var p := PositionOf(w, account);
    var h := HubOf(w, hub);
    w.(positions := w.positions[account := p.(collateral := p.collateral[hub := Collateral(w, account, hub) + delta])],
    hubs := w.hubs[hub := h.(cash := h.cash + delta, supplied := h.supplied + delta)])
  }

  function ChangeDebt(w: World, account: nat, hub: nat, delta: int): World {
    var p := PositionOf(w, account);
    var h := HubOf(w, hub);
    w.(positions := w.positions[account := p.(debt := p.debt[hub := Debt(w, account, hub) + delta])],
    hubs := w.hubs[hub := h.(cash := h.cash - delta, borrowed := h.borrowed + delta)])
  }

  function Withdrawn(env: Settings, w: World, user: Address, account: nat, hub: nat, amount: int): World {
    Credit(ChangeCollateral(w, account, hub, -amount), env.usdc, user, amount)
  }

  function Supplied(env: Settings, w: World, user: Address, account: nat, hub: nat, amount: int): World {
    Credit(ChangeCollateral(w, account, hub, amount), env.usdc, user, -amount)
  }

  /** A repayment takes at most the debt and leaves the rest in the wallet. */
  function Repaid(env: Settings, w: World, user: Address, account: nat, hub: nat, amount: int): World {
    var debt := Debt(w, account, hub);
    var taken := if amount < debt then amount else debt;
    Credit(ChangeDebt(w, account, hub, -taken), env.usdc, user, -taken)
  }

  /**
    * Each call refuses, or does exactly what it says. A withdrawal may pay less than was asked, as long as it reports what
    * it paid. None of them checks anything on the router's behalf.
    */
  ghost predicate Honest(ext: Outside, env: Settings) {
    && (forall w, user, account, hub, amount ::
          ext.withdraw(w, user, account, hub, amount).Ok? ==>
            var (after, got) := ext.withdraw(w, user, account, hub, amount).value;
            got.Some? && 0 <= got.value <= amount && after == Withdrawn(env, w, user, account, hub, got.value))
    && (forall w, user, account, hub, amount ::
          ext.supply(w, user, account, hub, amount).Ok? ==> ext.supply(w, user, account, hub, amount).value == Supplied(env, w, user, account, hub, amount))
    && (forall w, user, account, hub, amount ::
          ext.repay(w, user, account, hub, amount).Ok? ==> ext.repay(w, user, account, hub, amount).value == Repaid(env, w, user, account, hub, amount))
  }

  // ---- The user's money ----

  /** Wallet USDC, plus all collateral, minus all debt. */
  ghost function Wealth(env: Settings, w: World, user: Address, account: nat): int {
    Balance(w, env.usdc, user) + MapSum(PositionOf(w, account).collateral) - MapSum(PositionOf(w, account).debt)
  }

  ghost predicate Solvent(env: Settings, w: World, user: Address, account: nat) {
    && Balance(w, env.usdc, user) >= 0
    && (forall h :: Collateral(w, account, h) >= 0 && Debt(w, account, h) >= 0)
  }

  /** A hub with cash left and, when its ceiling binds, still under it. */
  predicate WithinLimits(h: Hub) {
    h.cash >= 0 && (CeilingActive(h.borrowed, h.maxUtilization) ==> h.borrowed * RAY <= h.maxUtilization * h.supplied)
  }

  lemma CollateralAfter(env: Settings, w: World, user: Address, account: nat, hub: nat, delta: int, paid: int, h: nat)
    ensures var after := Credit(ChangeCollateral(w, account, hub, delta), env.usdc, user, paid);
            && Collateral(after, account, h) == Collateral(w, account, h) + (if h == hub then delta else 0)
            && Debt(after, account, h) == Debt(w, account, h)
            && (h != hub ==> HubOf(after, h) == HubOf(w, h))
  {
  }

  lemma DebtAfter(env: Settings, w: World, user: Address, account: nat, hub: nat, delta: int, paid: int, h: nat)
    ensures var after := Credit(ChangeDebt(w, account, hub, delta), env.usdc, user, paid);
            && Collateral(after, account, h) == Collateral(w, account, h)
            && Debt(after, account, h) == Debt(w, account, h) + (if h == hub then delta else 0)
            && (h != hub ==> HubOf(after, h) == HubOf(w, h))
  {
  }

  lemma WithdrawnKeeps(env: Settings, w: World, user: Address, account: nat, hub: nat, amount: int, most: int)
    requires Solvent(env, w, user, account) && 0 <= amount <= most <= Collateral(w, account, hub)
    requires var h := HubOf(w, hub); PoolAllows(most, h.cash, h.supplied, h.borrowed, h.maxUtilization)
    ensures var after := Withdrawn(env, w, user, account, hub, amount);
            && Wealth(env, after, user, account) == Wealth(env, w, user, account)
            && Solvent(env, after, user, account)
            && Balance(after, env.usdc, user) == Balance(w, env.usdc, user) + amount
            && WithinLimits(HubOf(after, hub))
  {
    var p := PositionOf(w, account);
    MapSumUpdate(p.collateral, hub, Collateral(w, account, hub) - amount);
    forall h ensures Collateral(Withdrawn(env, w, user, account, hub, amount), account, h) >= 0 && Debt(Withdrawn(env, w, user, account, hub, amount), account, h) >= 0 {
      CollateralAfter(env, w, user, account, hub, -amount, amount, h);
    }
    LessIsAllowed(amount, most, HubOf(w, hub));
  }

  lemma SuppliedKeeps(env: Settings, w: World, user: Address, account: nat, hub: nat, amount: int)
    requires Solvent(env, w, user, account) && 0 <= amount <= Balance(w, env.usdc, user)
    ensures var after := Supplied(env, w, user, account, hub, amount);
            && Wealth(env, after, user, account) == Wealth(env, w, user, account)
            && Solvent(env, after, user, account)
            && (forall other :: other != hub ==> HubOf(after, other) == HubOf(w, other))
  {
    var p := PositionOf(w, account);
    MapSumUpdate(p.collateral, hub, Collateral(w, account, hub) + amount);
    forall h ensures Collateral(Supplied(env, w, user, account, hub, amount), account, h) >= 0 && Debt(Supplied(env, w, user, account, hub, amount), account, h) >= 0 {
      CollateralAfter(env, w, user, account, hub, amount, -amount, h);
    }
  }

  lemma RepaidKeeps(env: Settings, w: World, user: Address, account: nat, hub: nat, amount: int)
    requires Solvent(env, w, user, account) && 0 <= amount <= Balance(w, env.usdc, user)
    ensures var after := Repaid(env, w, user, account, hub, amount);
            && Wealth(env, after, user, account) == Wealth(env, w, user, account)
            && Solvent(env, after, user, account)
            && (forall other :: WithinLimits(HubOf(w, other)) ==> WithinLimits(HubOf(after, other)))
            && Debt(after, account, hub) == (if amount < Debt(w, account, hub) then Debt(w, account, hub) - amount else 0)
  {
    var p := PositionOf(w, account);
    var debt := Debt(w, account, hub);
    var taken := if amount < debt then amount else debt;
    MapSumUpdate(p.debt, hub, debt - taken);
    forall h ensures Collateral(Repaid(env, w, user, account, hub, amount), account, h) >= 0 && Debt(Repaid(env, w, user, account, hub, amount), account, h) >= 0 {
      DebtAfter(env, w, user, account, hub, -taken, -taken, h);
    }
  }

  /** Money kept, nobody overdrawn, and the hub a plan withdrew from within its limits. */
  ghost predicate Kept(env: Settings, w: World, after: World, user: Address, account: nat, p: Plan) {
    && Wealth(env, after, user, account) == Wealth(env, w, user, account)
    && Solvent(env, after, user, account)
    && (Source(p).Some? ==> WithinLimits(HubOf(after, Source(p).value)))
  }

  lemma WithdrawingRunKeeps(ext: Outside, env: Settings, w: World, user: Address, account: nat, index: nat, p: Plan, route: Option<Route>)
    requires Honest(ext, env) && Solvent(env, w, user, account) && Sound(env, w, user, account, p)
    requires Source(p).Some? && !p.Swap? && RunPlan(ext, env, w, user, account, index, p, route).Ok?
    ensures var (after, done) := RunPlan(ext, env, w, user, account, index, p, route).value;
            Kept(env, w, after, user, account, p) && 0 < done.amount <= p.amount
  {
    var hub := Source(p).value;
    var (taken, reported) := ext.withdraw(w, user, account, hub, p.amount).value;
    var got := reported.value;
    FloorGrainIs(got);
    WithdrawnKeeps(env, w, user, account, hub, got, p.amount);
    match p
    case Move(_, to, _) => SuppliedKeeps(env, taken, user, account, to, FloorGrain(got));
    case RepayCollateral(_, other, _) => RepaidKeeps(env, taken, user, account, other, FloorGrain(got));
    case Withdraw(_, _) =>
  }

  lemma WalletRunKeeps(ext: Outside, env: Settings, w: World, user: Address, account: nat, index: nat, p: Plan, route: Option<Route>)
    requires Honest(ext, env) && Solvent(env, w, user, account) && Sound(env, w, user, account, p)
    requires Source(p).None? && !p.Swap? && RunPlan(ext, env, w, user, account, index, p, route).Ok?
    ensures var (after, done) := RunPlan(ext, env, w, user, account, index, p, route).value;
            Kept(env, w, after, user, account, p) && done.amount == p.amount
  {
    match p
    case Supply(hub, amount) => SuppliedKeeps(env, w, user, account, hub, amount);
    case RepayWallet(hub, amount) => RepaidKeeps(env, w, user, account, hub, amount);
  }

  lemma SaneIsSolvent(env: Settings, w: World, user: Address, account: nat)
    requires Sane(w)
    ensures Solvent(env, w, user, account)
  {
  }

  /**
    * A committed run that is not a swap conserves the user's money to the unit, dust included, leaves no balance negative,
    * and leaves the hub it withdrew from with cash and under its ceiling.
    */
  lemma RunConserves(ext: Outside, env: Settings, w: World, user: Address, account: nat, index: nat, a: Action, p: Plan, route: Option<Route>)
    requires Honest(ext, env) && Sane(w) && ActionOk(a)
    requires PlanFor(env, w, user, account, a) == Ok(Some(p)) && !p.Swap?
    requires RunPlan(ext, env, w, user, account, index, p, route).Ok?
    ensures var (after, done) := RunPlan(ext, env, w, user, account, index, p, route).value;
            Kept(env, w, after, user, account, p) && 0 < done.amount <= p.amount
  {
    PlanIsSound(env, w, user, account, a, p);
    SaneIsSolvent(env, w, user, account);
    if Source(p).Some? {
      WithdrawingRunKeeps(ext, env, w, user, account, index, p, route);
    } else {
      WalletRunKeeps(ext, env, w, user, account, index, p, route);
    }
  }

  /** "Repay everything" with enough idle USDC clears the debt, having asked for it plus less than two grains. */
  lemma FullRepayClears(ext: Outside, env: Settings, w: World, user: Address, account: nat, index: nat, hub: nat, route: Option<Route>)
    requires Honest(ext, env) && Sane(w) && 0 < Debt(w, account, hub) <= I128_MAX - 2 * GRAIN
    requires Balance(w, env.usdc, user) >= Debt(w, account, hub) + 2 * GRAIN
    ensures var planned := PlanFor(env, w, user, account, RepayFromWallet(hub, All));
            && planned.Ok? && planned.value.Some?
            && Debt(w, account, hub) < planned.value.value.amount < Debt(w, account, hub) + 2 * GRAIN
            && (RunPlan(ext, env, w, user, account, index, planned.value.value, route).Ok? ==>
                  Debt(RunPlan(ext, env, w, user, account, index, planned.value.value, route).value.0, account, hub) == 0)
  {
    DebtBaseCovers(Debt(w, account, hub));
    ResolveIs(All, DebtBase(Debt(w, account, hub)).value);
    FloorGrainIs(Balance(w, env.usdc, user));
    SnappedStays(DebtBase(Debt(w, account, hub)).value);
    RepaidKeeps(env, w, user, account, hub, DebtBase(Debt(w, account, hub)).value);
  }
}
