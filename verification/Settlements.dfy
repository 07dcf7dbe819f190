/**
  * What a committed tick leaves in the books, to the unit (contracts/koul_router/src/lib.rs:729-795): the wallet, the
  * collateral and the debt of every hub, and what the tick reports.
  */
module Settlements {
  import opened Basics
  import opened MachineInt
  import opened RouterMath
  import opened RouterTypes
  import opened Reads
  import opened Engine
  import opened Registry
  import opened Router
  import opened Conservation
  import opened Walks
  import opened PlanAmounts
  import SwapFloors

  // ---- Books ----

  /** An amount at one hub, or none. */
  datatype Entry = Nothing | At(hub: nat, amount: int)

  function EntryAt(e: Entry, hub: nat): int {
    if e.At? && e.hub == hub then e.amount else 0
  }

  /** The account's collateral and debt, hub by hub: taken from one, put into another, paid off a third. */
  ghost predicate PositionBooked(w: World, after: World, account: nat, taken: Entry, put: Entry, paid: Entry) {
    forall h :: && Collateral(after, account, h) == Collateral(w, account, h) - EntryAt(taken, h) + EntryAt(put, h)
                && Debt(after, account, h) == Debt(w, account, h) - EntryAt(paid, h)
  }

  /** The wallet's USDC, and everybody else's money as it was. */
  ghost predicate WalletBooked(env: Settings, w: World, after: World, user: Address, account: nat, wallet: int) {
    && Balance(after, env.usdc, user) == Balance(w, env.usdc, user) + wallet
    && (forall token, holder :: (token, holder) != (env.usdc, user) ==> Balance(after, token, holder) == Balance(w, token, holder))
    && (forall other :: other != account ==> PositionOf(after, other) == PositionOf(w, other))
  }

  ghost predicate Booked(env: Settings, w: World, after: World, user: Address, account: nat, wallet: int, taken: Entry, put: Entry, paid: Entry) {
    PositionBooked(w, after, account, taken, put, paid) && WalletBooked(env, w, after, user, account, wallet)
  }

  lemma WithdrawnBooks(env: Settings, w: World, user: Address, account: nat, hub: nat, amount: int)
    ensures Booked(env, w, Withdrawn(env, w, user, account, hub, amount), user, account, amount, At(hub, amount), Nothing, Nothing)
  {
    var after := Withdrawn(env, w, user, account, hub, amount);
    forall h ensures Collateral(after, account, h) == Collateral(w, account, h) - EntryAt(At(hub, amount), h) && Debt(after, account, h) == Debt(w, account, h) {
      CollateralAfter(env, w, user, account, hub, -amount, amount, h);
    }
  }

  lemma SuppliedBooks(env: Settings, w: World, user: Address, account: nat, hub: nat, amount: int)
    ensures Booked(env, w, Supplied(env, w, user, account, hub, amount), user, account, -amount, Nothing, At(hub, amount), Nothing)
  {
    var after := Supplied(env, w, user, account, hub, amount);
    forall h ensures Collateral(after, account, h) == Collateral(w, account, h) + EntryAt(At(hub, amount), h) && Debt(after, account, h) == Debt(w, account, h) {
      CollateralAfter(env, w, user, account, hub, amount, -amount, h);
    }
  }

  lemma RepaidBooks(env: Settings, w: World, user: Address, account: nat, hub: nat, amount: int)
    ensures var k := Least(amount, Debt(w, account, hub));
            Booked(env, w, Repaid(env, w, user, account, hub, amount), user, account, -k, Nothing, Nothing, At(hub, k))
  {
    var after, k := Repaid(env, w, user, account, hub, amount), Least(amount, Debt(w, account, hub));
    forall h ensures Collateral(after, account, h) == Collateral(w, account, h) && Debt(after, account, h) == Debt(w, account, h) - EntryAt(At(hub, k), h) {
      DebtAfter(env, w, user, account, hub, -k, -k, h);
    }
  }

  /** Two bookings, one after the other, on different sides of the books. */
  lemma BookedTwice(env: Settings, w: World, mid: World, after: World, user: Address, account: nat, first: int, second: int, taken: Entry, put: Entry, paid: Entry)
    requires Booked(env, w, mid, user, account, first, taken, Nothing, Nothing)
    requires Booked(env, mid, after, user, account, second, Nothing, put, paid)
    ensures Booked(env, w, after, user, account, first + second, taken, put, paid)
  {
    forall h
      ensures Collateral(after, account, h) == Collateral(w, account, h) - EntryAt(taken, h) + EntryAt(put, h)
      ensures Debt(after, account, h) == Debt(w, account, h) - EntryAt(paid, h)
    {
    }
  }

  // ---- Lending plans ----

  /** What the controller says it paid for the plan's withdrawal. */
  function PaidOut(ext: Outside, w: World, user: Address, account: nat, p: Plan): int {
    if Source(p).None? then 0
    else
      match ext.withdraw(w, user, account, Source(p).value, p.amount)
      case Ok((_, Some(n))) => n
      case _ => 0
  }

  /**
    * The books after a lending plan whose withdrawal, if it has one, paid `got`: all of it left the source hub; whole cents of
    * it were moved on or repaid, and the rest stayed in the wallet.
    */
  ghost predicate Settled(env: Settings, w: World, after: World, user: Address, account: nat, p: Plan, got: int) {
    match p
    case Move(from, to, _) => Booked(env, w, after, user, account, got - Cents(got), At(from, got), At(to, Cents(got)), Nothing)
    case Supply(hub, n) => Booked(env, w, after, user, account, -n, Nothing, At(hub, n), Nothing)
    case RepayWallet(hub, n) =>
      var k := Least(n, Debt(w, account, hub));
      Booked(env, w, after, user, account, -k, Nothing, Nothing, At(hub, k))
    case RepayCollateral(from, hub, _) =>
      var k := Least(Cents(got), Debt(w, account, hub));
      Booked(env, w, after, user, account, got - k, At(from, got), Nothing, At(hub, k))
    case Withdraw(hub, _) => Booked(env, w, after, user, account, got, At(hub, got), Nothing, Nothing)
    case Swap(_, _, _, _, _) => true
  }

  /** What the tick reports: the rule, what it did, how much was moved on, and between which hubs. */
  predicate Reported(p: Plan, index: nat, done: Executed, got: int) {
    match p
    case Move(from, to, _) => done == Executed(index, MoveSupplyKind, Cents(got), from, to)
    case Supply(hub, n) => done == Executed(index, SupplyKind, n, hub, hub)
    case RepayWallet(hub, n) => done == Executed(index, RepayWalletKind, n, hub, hub)
    case RepayCollateral(from, hub, _) => done == Executed(index, RepayCollateralKind, Cents(got), from, hub)
    case Withdraw(hub, _) => done == Executed(index, WithdrawKind, Cents(got), hub, hub)
    case Swap(_, _, n, _, None) => done == Executed(index, SwapKind, n, 0, 0)
    case Swap(_, _, n, _, Some(hub)) => done == Executed(index, WithdrawSwapKind, n, hub, 0)
  }

  lemma RunIsReported(ext: Outside, env: Settings, w: World, user: Address, account: nat, index: nat, p: Plan, route: Option<Route>)
    requires RunPlan(ext, env, w, user, account, index, p, route).Ok?
    ensures Reported(p, index, RunPlan(ext, env, w, user, account, index, p, route).value.1, PaidOut(ext, w, user, account, p))
  {
    CentsAre(PaidOut(ext, w, user, account, p));
  }

  /** The withdrawal that a drawn plan starts with. */
  lemma DrawnFirst(ext: Outside, env: Settings, w: World, user: Address, account: nat, p: Plan)
    requires Honest(ext, env) && Source(p).Some? && ext.withdraw(w, user, account, Source(p).value, p.amount).Ok?
    ensures var got := PaidOut(ext, w, user, account, p);
            && 0 <= got <= p.amount && Cents(got) == FloorGrain(got)
            && ext.withdraw(w, user, account, Source(p).value, p.amount).value == (Withdrawn(env, w, user, account, Source(p).value, got), Some(got))
  {
    CentsAre(PaidOut(ext, w, user, account, p));
  }

  lemma MoveSettles(ext: Outside, env: Settings, w: World, user: Address, account: nat, index: nat, p: Plan, route: Option<Route>)
    requires Honest(ext, env) && p.Move? && RunPlan(ext, env, w, user, account, index, p, route).Ok?
    ensures Settled(env, w, RunPlan(ext, env, w, user, account, index, p, route).value.0, user, account, p, PaidOut(ext, w, user, account, p))
  {
    var got := PaidOut(ext, w, user, account, p);
    DrawnFirst(ext, env, w, user, account, p);
    var mid := Withdrawn(env, w, user, account, p.from, got);
    WithdrawnBooks(env, w, user, account, p.from, got);
    SuppliedBooks(env, mid, user, account, p.to, Cents(got));
    BookedTwice(env, w, mid, Supplied(env, mid, user, account, p.to, Cents(got)), user, account, got, -Cents(got), At(p.from, got), At(p.to, Cents(got)), Nothing);
  }

  lemma RepayCollateralSettles(ext: Outside, env: Settings, w: World, user: Address, account: nat, index: nat, p: Plan, route: Option<Route>)
    requires Honest(ext, env) && p.RepayCollateral? && RunPlan(ext, env, w, user, account, index, p, route).Ok?
    ensures Settled(env, w, RunPlan(ext, env, w, user, account, index, p, route).value.0, user, account, p, PaidOut(ext, w, user, account, p))
  {
    var got := PaidOut(ext, w, user, account, p);
    DrawnFirst(ext, env, w, user, account, p);
    var mid := Withdrawn(env, w, user, account, p.from, got);
    WithdrawnBooks(env, w, user, account, p.from, got);
    var k := Least(Cents(got), Debt(mid, account, p.hub));
    RepaidBooks(env, mid, user, account, p.hub, Cents(got));
    BookedTwice(env, w, mid, Repaid(env, mid, user, account, p.hub, Cents(got)), user, account, got, -k, At(p.from, got), Nothing, At(p.hub, k));
  }

  lemma WithdrawSettles(ext: Outside, env: Settings, w: World, user: Address, account: nat, index: nat, p: Plan, route: Option<Route>)
    requires Honest(ext, env) && p.Withdraw? && RunPlan(ext, env, w, user, account, index, p, route).Ok?
    ensures Settled(env, w, RunPlan(ext, env, w, user, account, index, p, route).value.0, user, account, p, PaidOut(ext, w, user, account, p))
  {
    DrawnFirst(ext, env, w, user, account, p);
    WithdrawnBooks(env, w, user, account, p.hub, PaidOut(ext, w, user, account, p));
  }

  lemma RunSettles(ext: Outside, env: Settings, w: World, user: Address, account: nat, index: nat, p: Plan, route: Option<Route>)
    requires Honest(ext, env) && !p.Swap? && RunPlan(ext, env, w, user, account, index, p, route).Ok?
    ensures Settled(env, w, RunPlan(ext, env, w, user, account, index, p, route).value.0, user, account, p, PaidOut(ext, w, user, account, p))
  {
    match p
    case Move(_, _, _) => MoveSettles(ext, env, w, user, account, index, p, route);
    case RepayCollateral(_, _, _) => RepayCollateralSettles(ext, env, w, user, account, index, p, route);
    case Withdraw(_, _) => WithdrawSettles(ext, env, w, user, account, index, p, route);
    case Supply(hub, n) => SuppliedBooks(env, w, user, account, hub, n);
    case RepayWallet(hub, n) => RepaidBooks(env, w, user, account, hub, n);
  }

  lemma PaidInFullIs(ext: Outside, env: Settings, w: World, user: Address, account: nat, a: Action, p: Plan)
    requires PaysInFull(ext) && PlanFor(env, w, user, account, a) == Ok(Some(p)) && Source(p).Some?
    requires ext.withdraw(w, user, account, Source(p).value, p.amount).Ok?
    ensures PaidOut(ext, w, user, account, p) == p.amount && Cents(p.amount) == p.amount
  {
    DrawIsOnGrain(env, w, user, account, a, p);
    CentsAre(p.amount);
    SnappedStays(p.amount);
  }

  /** The books do not mention sessions. */
  lemma SettledWithSessions(env: Settings, w: World, after: World, closed: World, user: Address, account: nat, p: Plan, got: int)
    requires Settled(env, w, after, user, account, p, got) && closed == after.(sessions := closed.sessions)
    ensures Settled(env, w, closed, user, account, p, got)
  {
    forall h ensures Collateral(closed, account, h) == Collateral(after, account, h) && Debt(closed, account, h) == Debt(after, account, h) {
    }
    forall token, holder ensures Balance(closed, token, holder) == Balance(after, token, holder) {
    }
    forall other ensures PositionOf(closed, other) == PositionOf(after, other) {
    }
  }

  lemma RunSettlesWith(ext: Outside, env: Settings, w: World, closed: World, user: Address, account: nat, index: nat, a: Action, p: Plan, route: Option<Route>)
    requires Honest(ext, env) && PlanFor(env, w, user, account, a) == Ok(Some(p)) && RunPlan(ext, env, w, user, account, index, p, route).Ok?
    requires closed == RunPlan(ext, env, w, user, account, index, p, route).value.0.(sessions := closed.sessions)
    ensures Settled(env, w, closed, user, account, p, PaidOut(ext, w, user, account, p))
    ensures PaysInFull(ext) && Source(p).Some? ==> PaidOut(ext, w, user, account, p) == p.amount == Cents(p.amount)
  {
    if !p.Swap? {
      RunSettles(ext, env, w, user, account, index, p, route);
      SettledWithSessions(env, w, RunPlan(ext, env, w, user, account, index, p, route).value.0, closed, user, account, p, PaidOut(ext, w, user, account, p));
    }
    if PaysInFull(ext) && Source(p).Some? {
      PaidInFullIs(ext, env, w, user, account, a, p);
    }
  }

  /** The tick committed and fired a rule. */
  predicate TickFired(ext: Outside, env: Settings, s: Storage, w: World, user: Address, id: nat, route: Option<Route>) {
    TickOf(ext, env, s, w, user, id, route).Ok? && TickOf(ext, env, s, w, user, id, route).value.2.Some?
  }

  lemma TickRan(ext: Outside, env: Settings, s: Storage, w: World, user: Address, id: nat, route: Option<Route>) returns (c: Choice)
    requires TickFired(ext, env, s, w, user, id, route)
    ensures (user, id) in s.autopilots && Choose(env, s, w, user, id, s.autopilots[(user, id)]) == Ok(Some(c))
    ensures var ap, t := s.autopilots[(user, id)], TickOf(ext, env, s, w, user, id, route).value;
            && c.index < |ap.rules| && PlanFor(env, w, user, ap.accountId, ap.rules[c.index].action) == Ok(Some(c.plan))
            && RunPlan(ext, env, w, user, ap.accountId, c.index, c.plan, route).Ok?
            && var (moved, done) := RunPlan(ext, env, w, user, ap.accountId, c.index, c.plan, route).value;
            t.2 == Some(done) && t.1 == moved.(sessions := t.1.sessions)
  {
    var ap := s.autopilots[(user, id)];
    c := Choose(env, s, w, user, id, ap).value.value;
    ChooseIsFirst(env, s, w, user, id, ap, c);
  }

  /** The plan of the rule that a tick's report names. */
  function FiredPlan(env: Settings, s: Storage, w: World, user: Address, id: nat, index: nat): Option<Plan> {
    if (user, id) !in s.autopilots || index >= |s.autopilots[(user, id)].rules| then None
    else
      match PlanFor(env, w, user, s.autopilots[(user, id)].accountId, s.autopilots[(user, id)].rules[index].action)
      case Ok(p) => p
      case Panic(_) => None
  }

  /**
    * A committed tick of a lending rule, with honest lending contracts: the plan was what the rule asks for, and the wallet,
    * every hub's collateral and debt and the report are exactly what that plan says, in full when the controller pays in full.
    */
  lemma TickSettles(ext: Outside, env: Settings, s: Storage, w: World, user: Address, id: nat, route: Option<Route>)
    requires Exact(s) && Sane(w) && Honest(ext, env) && TickFired(ext, env, s, w, user, id, route)
    ensures var (_, after, done) := TickOf(ext, env, s, w, user, id, route).value;
            var plan := FiredPlan(env, s, w, user, id, done.value.index);
            && plan.Some? && (user, id) in s.autopilots
            && var (ap, p) := (s.autopilots[(user, id)], plan.value);
            var got := PaidOut(ext, w, user, ap.accountId, p);
            && done.value.index < |ap.rules|
            && PlanIs(env, w, user, ap.accountId, ap.rules[done.value.index].action, plan)
            && Settled(env, w, after, user, ap.accountId, p, got) && Reported(p, done.value.index, done.value, got)
            && (PaysInFull(ext) && Source(p).Some? ==> got == p.amount == Cents(p.amount))
  {
    var c := TickRan(ext, env, s, w, user, id, route);
    var ap, t := s.autopilots[(user, id)], TickOf(ext, env, s, w, user, id, route).value;
    assert ap.rules[c.index] in ap.rules;
    PlanIsWhatWasAsked(env, w, user, ap.accountId, ap.rules[c.index].action);
    RunIsReported(ext, env, w, user, ap.accountId, c.index, c.plan, route);
    RunSettlesWith(ext, env, w, t.1, user, ap.accountId, c.index, ap.rules[c.index].action, c.plan, route);
  }

  // ---- Swaps ----

  /** An aggregator that touches balances only, and takes from the wallet just what it is handed of the route's first token. */
  ghost predicate TakesWhatItIsHanded(ext: Outside) {
    forall w, user, aggregator, amount, route :: ext.strategy(w, user, aggregator, amount, route).Ok? ==>
                                                   var after := ext.strategy(w, user, aggregator, amount, route).value;
                                                   && after == w.(balances := after.balances)
                                                   && forall token :: RouteAsset(route, 1) == Some(token) ==> Balance(after, token, user) == Balance(w, token, user) - amount
  }

  /** The swap took its amount of the token it sells, out of the wallet or out of the hub it drew on, and touched no other position. */
  ghost predicate SwapSettled(env: Settings, w: World, after: World, user: Address, account: nat, p: Plan)
    requires p.Swap?
  {
    match p.withdrawHub
    case None =>
      Balance(after, p.tokenIn, user) == Balance(w, p.tokenIn, user) - p.amount && PositionBooked(w, after, account, Nothing, Nothing, Nothing)
    case Some(hub) =>
      && p.tokenIn == env.usdc && Balance(after, env.usdc, user) == Balance(w, env.usdc, user)
      && PositionBooked(w, after, account, At(hub, p.amount), Nothing, Nothing)
  }

  lemma BalancesAreNotPositions(w: World, after: World, account: nat)
    requires after == w.(balances := after.balances)
    ensures PositionBooked(w, after, account, Nothing, Nothing, Nothing)
  {
    assert PositionOf(after, account) == PositionOf(w, account);
  }

  lemma SwapRunSettles(ext: Outside, env: Settings, w: World, user: Address, account: nat, index: nat, p: Plan, route: Option<Route>)
    requires Honest(ext, env) && TakesWhatItIsHanded(ext) && p.Swap? && p.amount >= 0
    requires p.withdrawHub.Some? ==> p.tokenIn == env.usdc && OnGrain(p.amount)
    requires RunPlan(ext, env, w, user, account, index, p, route).Ok?
    ensures SwapSettled(env, w, RunPlan(ext, env, w, user, account, index, p, route).value.0, user, account, p)
  {
    var after := RunPlan(ext, env, w, user, account, index, p, route).value.0;
    var funded := FundedWorld(ext, w, user, account, p);
    assert RunSwap(ext, env, w, user, account, p, route).Ok?;
    assert after == ext.strategy(funded, user, env.aggregator.value, p.amount, route.value).value;
    BalancesAreNotPositions(funded, after, account);
    if p.withdrawHub.Some? {
      var (mid, reported) := ext.withdraw(w, user, account, p.withdrawHub.value, p.amount).value;
      SwapFloors.PaidInFull(reported.value, p.amount);
      WithdrawnBooks(env, w, user, account, p.withdrawHub.value, p.amount);
      assert funded == mid;
    }
  }

  /** A committed swap, with honest contracts, takes exactly what was planned: from the wallet, or from the hub it names. */
  lemma TickSwapSettles(ext: Outside, env: Settings, s: Storage, w: World, user: Address, id: nat, route: Option<Route>)
    requires Exact(s) && Sane(w) && Honest(ext, env) && TakesWhatItIsHanded(ext) && TickFired(ext, env, s, w, user, id, route)
    requires var kind := TickOf(ext, env, s, w, user, id, route).value.2.value.kind; kind == SwapKind || kind == WithdrawSwapKind
    ensures var (_, after, done) := TickOf(ext, env, s, w, user, id, route).value;
            var plan := FiredPlan(env, s, w, user, id, done.value.index);
            && plan.Some? && plan.value.Swap? && (user, id) in s.autopilots
            && SwapSettled(env, w, after, user, s.autopilots[(user, id)].accountId, plan.value)
  {
    var c := TickRan(ext, env, s, w, user, id, route);
    var ap, t := s.autopilots[(user, id)], TickOf(ext, env, s, w, user, id, route).value;
    RunReports(ext, env, w, user, ap.accountId, c.index, c.plan, route);
    assert ap.rules[c.index] in ap.rules;
    SwapSettlesWith(ext, env, w, t.1, user, ap.accountId, c.index, ap.rules[c.index].action, c.plan, route);
  }

  lemma SwapPlanIs(env: Settings, w: World, user: Address, account: nat, a: Action, p: Plan)
    requires Sane(w) && ActionOk(a) && PlanFor(env, w, user, account, a) == Ok(Some(p)) && p.Swap?
    ensures p.amount > 0 && (p.withdrawHub.Some? ==> p.tokenIn == env.usdc && OnGrain(p.amount))
  {
    PlanIsSound(env, w, user, account, a, p);
  }

  lemma SwapSettlesWith(ext: Outside, env: Settings, w: World, closed: World, user: Address, account: nat, index: nat, a: Action, p: Plan, route: Option<Route>)
    requires Sane(w) && ActionOk(a) && Honest(ext, env) && TakesWhatItIsHanded(ext)
    requires PlanFor(env, w, user, account, a) == Ok(Some(p)) && p.Swap? && RunPlan(ext, env, w, user, account, index, p, route).Ok?
    requires closed == RunPlan(ext, env, w, user, account, index, p, route).value.0.(sessions := closed.sessions)
    ensures SwapSettled(env, w, closed, user, account, p)
  {
    SwapPlanIs(env, w, user, account, a, p);
    SwapRunSettles(ext, env, w, user, account, index, p, route);
    BalancesWithSessions(env, w, RunPlan(ext, env, w, user, account, index, p, route).value.0, closed, user, account, p);
  }

  lemma BalancesWithSessions(env: Settings, w: World, after: World, closed: World, user: Address, account: nat, p: Plan)
    requires p.Swap? && SwapSettled(env, w, after, user, account, p) && closed == after.(sessions := closed.sessions)
    ensures SwapSettled(env, w, closed, user, account, p)
  {
    assert PositionOf(closed, account) == PositionOf(after, account);
    assert forall token, holder :: Balance(closed, token, holder) == Balance(after, token, holder);
  }
}
