/**
  * When a rule holds, condition by condition, on the figures of the world (contracts/koul_router/src/lib.rs:382-401, 561-622),
  * and so which rule a tick fires.
  */
module RuleTruth {
  import opened Basics
  import opened MachineInt
  import opened RouterMath
  import opened RouterTypes
  import opened Reads
  import opened Engine
  import opened Registry
  import opened Router
  import opened Walks
  import opened PlanAmounts
  import opened Settlements

  /** One hundredth of a percent, as rates are kept: 27 decimals. */
  const BPS: int := 100_000_000_000_000_000_000_000

  predicate Met(cmp: Cmp, value: int, level: int) {
    if cmp == Below then value < level else level <= value
  }

  ghost predicate ConditionHolds(env: Settings, w: World, user: Address, account: nat, c: Condition) {
    match c
    case HealthFactor(cmp, level) => Met(cmp, PositionOf(w, account).health, level)
    case SupplyRateGap(over, under, minBps) => HubOf(w, under).rate + minBps * BPS <= HubOf(w, over).rate
    case SupplyRate(hub, cmp, bps) => Met(cmp, HubOf(w, hub).rate, bps * BPS)
    case FxPrice(asset, cmp, level, maxAge) =>
      && (env.oracle, Other(asset)) in w.quotes
      && w.timestamp <= w.quotes[(env.oracle, Other(asset))].timestamp + maxAge
      && Met(cmp, w.quotes[(env.oracle, Other(asset))].price, level)
    case IdleBalance(cmp, amount) => Met(cmp, Balance(w, env.usdc, user), amount)
    case TokenPrice(token, cmp, level) => exists price, decimals :: Priced(env, w, token, price, decimals) && Met(cmp, price, level)
    case TokenBalance(token, cmp, amount) => Met(cmp, Balance(w, token, user), amount)
  }

  ghost predicate RuleHolds(env: Settings, w: World, user: Address, account: nat, r: Rule) {
    if r.matchAll then forall i :: 0 <= i < |r.conditions| ==> ConditionHolds(env, w, user, account, r.conditions[i])
    else exists i :: 0 <= i < |r.conditions| && ConditionHolds(env, w, user, account, r.conditions[i])
  }

  lemma RateInBps(rate: int, bps: nat, cmp: Cmp)
    requires bps > 0
    ensures Holds(cmp, TruncDiv(rate, BPS_RAY), bps) <==> Met(cmp, rate, bps * BPS)
  {
    if rate >= 0 {
      DivBounds(rate, BPS_RAY);
      if rate / BPS_RAY < bps {
        MulMonotone(BPS_RAY, rate / BPS_RAY + 1, bps);
      } else {
        MulMonotone(BPS_RAY, bps, rate / BPS_RAY);
      }
    } else {
      DivNonNegative(-rate, BPS_RAY);
    }
  }

  lemma TokenPriceHolds(env: Settings, w: World, user: Address, account: nat, token: Address, cmp: Cmp, level: int)
    ensures Evaluate(env, w, user, account, TokenPrice(token, cmp, level)).Ok?
    ensures Evaluate(env, w, user, account, TokenPrice(token, cmp, level)).value.holds
       <==> exists price, decimals :: Priced(env, w, token, price, decimals) && Met(cmp, price, level)
  {
    if Price(env, w, token).Some? {
      var (price, decimals) := Price(env, w, token).value;
      PriceIsExactly(env, w, token, price, decimals);
    }
    if price, decimals :| Priced(env, w, token, price, decimals) && Met(cmp, price, level) {
      PriceIsExactly(env, w, token, price, decimals);
    }
  }

  /** A condition is read as true exactly when it holds of the figures; only a gap of rates can be too wide to read. */
  lemma ConditionIs(env: Settings, w: World, user: Address, account: nat, c: Condition)
    requires ConditionOk(c)
    ensures Evaluate(env, w, user, account, c).Ok? ==>
              (Evaluate(env, w, user, account, c).value.holds <==> ConditionHolds(env, w, user, account, c))
    ensures Evaluate(env, w, user, account, c).Panic?
       <==> c.SupplyRateGap? && !(FitsI128(HubOf(w, c.over).rate - HubOf(w, c.under).rate) && c.minBps * BPS <= I128_MAX)
  {
    match c
    case SupplyRate(hub, cmp, bps) => RateInBps(HubOf(w, hub).rate, bps, cmp);
    case TokenPrice(token, cmp, level) => TokenPriceHolds(env, w, user, account, token, cmp, level);
    case _ =>
  }

  lemma {:induction false} StatesAre(env: Settings, w: World, user: Address, account: nat, cs: seq<Condition>, n: nat)
    requires n <= |cs| && EvaluateFirst(env, w, user, account, cs, n).Ok?
    ensures var states := EvaluateFirst(env, w, user, account, cs, n).value;
            |states| == n && forall i :: 0 <= i < n ==> Evaluate(env, w, user, account, cs[i]) == Ok(states[i])
  {
    if n > 0 {
      StatesAre(env, w, user, account, cs, n - 1);
    }
  }

  /** A rule is read as true exactly when all of its conditions hold, or any of them if it asks for any. */
  lemma RuleIs(env: Settings, w: World, user: Address, account: nat, r: Rule)
    requires RuleOk(r) && EvaluateRule(env, w, user, account, r).Ok?
    ensures EvaluateRule(env, w, user, account, r).value.0 <==> RuleHolds(env, w, user, account, r)
  {
    var states := EvaluateRule(env, w, user, account, r).value.1;
    StatesAre(env, w, user, account, r.conditions, |r.conditions|);
    forall i | 0 <= i < |r.conditions| ensures states[i].holds <==> ConditionHolds(env, w, user, account, r.conditions[i]) {
      assert r.conditions[i] in r.conditions;
      ConditionIs(env, w, user, account, r.conditions[i]);
    }
    if s :| s in states && s.holds {
      var i :| 0 <= i < |states| && states[i] == s;
      assert ConditionHolds(env, w, user, account, r.conditions[i]);
    }
  }

  // ---- Which rule a tick fires ----

  /** Never fired since it was saved, or not within its cooldown. */
  predicate Rested(s: Storage, user: Address, id: nat, index: nat, cooldown: nat, now: nat) {
    (user, id, index) !in s.lastFired || s.lastFired[(user, id, index)] == 0 || s.lastFired[(user, id, index)] + cooldown <= now
  }

  lemma RestedIsReady(s: Storage, user: Address, id: nat, index: nat, cooldown: nat, now: nat)
    requires cooldown > 0
    ensures Ready(LastFired(s, user, id, index), now, cooldown) <==> Rested(s, user, id, index, cooldown, now)
  {
  }

  /** The rule is rested, holds, and has this to do. */
  ghost predicate Acts(env: Settings, s: Storage, w: World, user: Address, id: nat, index: nat, plan: Plan)
    requires (user, id) in s.autopilots && index < |s.autopilots[(user, id)].rules|
  {
    var ap, r := s.autopilots[(user, id)], s.autopilots[(user, id)].rules[index];
    && Rested(s, user, id, index, r.cooldown, w.ledger) && RuleHolds(env, w, user, ap.accountId, r)
    && PlanIs(env, w, user, ap.accountId, r.action, Some(plan))
  }

  /** The rule is within its cooldown, does not hold, or has nothing to do. */
  ghost predicate Passes(env: Settings, s: Storage, w: World, user: Address, id: nat, index: nat)
    requires (user, id) in s.autopilots && index < |s.autopilots[(user, id)].rules|
  {
    var ap, r := s.autopilots[(user, id)], s.autopilots[(user, id)].rules[index];
    || !Rested(s, user, id, index, r.cooldown, w.ledger)
    || !RuleHolds(env, w, user, ap.accountId, r)
    || PlanIs(env, w, user, ap.accountId, r.action, None)
  }

  lemma IdlePasses(env: Settings, s: Storage, w: World, user: Address, id: nat, index: nat)
    requires Exact(s) && Sane(w) && (user, id) in s.autopilots && index < |s.autopilots[(user, id)].rules|
    requires Idle(env, s, w, user, id, s.autopilots[(user, id)], index)
    ensures Passes(env, s, w, user, id, index)
  {
    var ap, r := s.autopilots[(user, id)], s.autopilots[(user, id)].rules[index];
    assert r in ap.rules;
    RestedIsReady(s, user, id, index, r.cooldown, w.ledger);
    if Ready(LastFired(s, user, id, index), w.ledger, r.cooldown) {
      RuleIs(env, w, user, ap.accountId, r);
      if EvaluateRule(env, w, user, ap.accountId, r).value.0 {
        PlanIsWhatWasAsked(env, w, user, ap.accountId, r.action);
      }
    }
  }

  lemma DueActs(env: Settings, s: Storage, w: World, user: Address, id: nat, c: Choice)
    requires Exact(s) && Sane(w) && (user, id) in s.autopilots && c.index < |s.autopilots[(user, id)].rules|
    requires Due(env, s, w, user, id, s.autopilots[(user, id)], c)
    ensures Acts(env, s, w, user, id, c.index, c.plan)
  {
    var ap, r := s.autopilots[(user, id)], s.autopilots[(user, id)].rules[c.index];
    assert r in ap.rules;
    RestedIsReady(s, user, id, c.index, r.cooldown, w.ledger);
    RuleIs(env, w, user, ap.accountId, r);
    PlanIsWhatWasAsked(env, w, user, ap.accountId, r.action);
  }

  /**
    * A committed tick fires the first rule that is rested, holds on the world's figures and has something to do, and fires
    * none when there is no such rule.
    */
  lemma TickFiresTheFirst(ext: Outside, env: Settings, s: Storage, w: World, user: Address, id: nat, route: Option<Route>)
    requires Exact(s) && Sane(w) && TickOf(ext, env, s, w, user, id, route).Ok?
    ensures (user, id) in s.autopilots
    ensures var done, n := TickOf(ext, env, s, w, user, id, route).value.2, |s.autopilots[(user, id)].rules|;
            match done
            case None => forall j :: 0 <= j < n ==> Passes(env, s, w, user, id, j)
            case Some(e) =>
              && e.index < n && (forall j :: 0 <= j < e.index ==> Passes(env, s, w, user, id, j))
              && exists plan :: Acts(env, s, w, user, id, e.index, plan)
  {
    var ap := s.autopilots[(user, id)];
    if TickFired(ext, env, s, w, user, id, route) {
      var c := TickRan(ext, env, s, w, user, id, route);
      ChooseIsFirst(env, s, w, user, id, ap, c);
      RunReports(ext, env, w, user, ap.accountId, c.index, c.plan, route);
      DueActs(env, s, w, user, id, c);
      forall j | 0 <= j < c.index ensures Passes(env, s, w, user, id, j) {
        IdlePasses(env, s, w, user, id, j);
      }
    } else {
      ChooseNothing(env, s, w, user, id, ap);
      forall j | 0 <= j < |ap.rules| ensures Passes(env, s, w, user, id, j) {
        IdlePasses(env, s, w, user, id, j);
      }
    }
  }

  // ---- What check shows ----

  lemma {:induction false} CheckLength(env: Settings, s: Storage, w: World, user: Address, id: nat, ap: Autopilot, n: nat, i: nat)
    requires i < n <= |ap.rules| && CheckFirst(env, s, w, user, id, ap, n).Ok?
    ensures var shown := CheckFirst(env, s, w, user, id, ap, n).value;
            |shown| == n && shown[i].lastFired == LastFired(s, user, id, i)
  {
    CheckAt(env, s, w, user, id, ap, n - 1);
    if i < n - 1 {
      CheckLength(env, s, w, user, id, ap, n - 1, i);
    }
  }

  /** The view shows of every rule whether it is rested, whether it and each of its conditions hold, and when it last fired. */
  lemma CheckMeans(env: Settings, s: Storage, w: World, user: Address, id: nat, i: nat)
    requires Exact(s) && (user, id) in s.autopilots && i < |s.autopilots[(user, id)].rules|
    requires var ap := s.autopilots[(user, id)]; CheckFirst(env, s, w, user, id, ap, |ap.rules|).Ok?
    ensures var ap, r := s.autopilots[(user, id)], s.autopilots[(user, id)].rules[i];
            var shown := CheckFirst(env, s, w, user, id, ap, |ap.rules|).value;
            && |shown| == |ap.rules|
            && (shown[i].ready <==> Rested(s, user, id, i, r.cooldown, w.ledger))
            && (shown[i].holds <==> RuleHolds(env, w, user, ap.accountId, r))
            && |shown[i].conditions| == |r.conditions|
            && (forall c :: 0 <= c < |r.conditions| ==>
                              (shown[i].conditions[c].holds <==> ConditionHolds(env, w, user, ap.accountId, r.conditions[c])))
            && shown[i].lastFired == (if (user, id, i) in s.lastFired then s.lastFired[(user, id, i)] else 0)
  {
    var ap, r := s.autopilots[(user, id)], s.autopilots[(user, id)].rules[i];
    var shown := CheckFirst(env, s, w, user, id, ap, |ap.rules|).value;
    assert r in ap.rules;
    CheckAt(env, s, w, user, id, ap, |ap.rules|);
    CheckLength(env, s, w, user, id, ap, |ap.rules|, i);
    RestedIsReady(s, user, id, i, r.cooldown, w.ledger);
    RuleIs(env, w, user, ap.accountId, r);
    StatesAre(env, w, user, ap.accountId, r.conditions, |r.conditions|);
    forall c | 0 <= c < |r.conditions|
      ensures shown[i].conditions[c].holds <==> ConditionHolds(env, w, user, ap.accountId, r.conditions[c])
    {
      assert r.conditions[c] in r.conditions;
      ConditionIs(env, w, user, ap.accountId, r.conditions[c]);
    }
  }
}
