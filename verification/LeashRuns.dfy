/**
  * From the person's autopilot to the agent's calls: granting the agent (packages/core/src/write.ts:31-46), then every tick
  * the router makes of that autopilot against the policy it installed.
  */
module LeashRuns {
  import opened Basics
  import opened MachineInt
  import Schema
  import Decimal
  import opened RouterTypes
  import opened Reads
  import opened AgentPolicy
  import opened Permissions
  import Engine
  import Leash
  import PolicyRuns
  import Registry
  import Router
  import Walks

  // ---- The authorization tree is what a run calls ----

  /** The contexts the account is asked to authorize for one outside call, depth first. */
  function ContextsOf(c: Contracts, user: Address, account: nat, call: Engine.OutsideCall): seq<Context> {
    match call
    case WithdrawCall(_) => [Leash.WithdrawContext(c, user, account)]
    case SupplyCall(_) => Leash.SupplyContexts(c, user, account)
    case RepayCall(_) => Leash.RepayContexts(c, user, account)
    case StrategyCall(aggregator, tokenIn) => Leash.SwapContexts(aggregator, user, tokenIn)
  }

  function AllContextsOf(c: Contracts, user: Address, account: nat, calls: seq<Engine.OutsideCall>): seq<Context> {
    if calls == [] then [] else ContextsOf(c, user, account, calls[0]) + AllContextsOf(c, user, account, calls[1..])
  }

  /** The tree checked against the policy is the tick's own context and those of the calls `run` makes, in order. */
  lemma TreeIsTheRun(c: Contracts, env: Settings, user: Address, account: nat, p: Plan)
    requires Leash.SameContracts(c, env) && (p.Swap? ==> c.aggregator.Some?)
    ensures Leash.Tree(c, user, account, Some(p)) == [Leash.TickContext(c, user)] + AllContextsOf(c, user, account, Engine.CallsOf(env, p))
  {
    var calls := Engine.CallsOf(env, p);
    if |calls| == 1 {
      OneCall(c, user, account, calls[0]);
      assert calls == [calls[0]];
    } else {
      TwoCalls(c, user, account, calls[0], calls[1]);
      assert calls == [calls[0], calls[1]];
    }
  }

  lemma OneCall(c: Contracts, user: Address, account: nat, call: Engine.OutsideCall)
    ensures AllContextsOf(c, user, account, [call]) == ContextsOf(c, user, account, call)
  {
    assert [call][1..] == [];
  }

  lemma TwoCalls(c: Contracts, user: Address, account: nat, first: Engine.OutsideCall, second: Engine.OutsideCall)
    ensures AllContextsOf(c, user, account, [first, second]) == ContextsOf(c, user, account, first) + ContextsOf(c, user, account, second)
  {
    assert [first, second][1..] == [second];
    OneCall(c, user, account, second);
  }

  // ---- Granting the agent ----

  /** The rule's parameters are the autopilot's account, what its rules use and nothing else, and the limit. */
  ghost predicate Leashed(t: Store, c: Contracts, ap: Autopilot, ruleId: nat, user: Address, maxCalls: nat, window: nat) {
    && window > 0 && maxCalls > 0
    && (Swaps(ap) ==> c.aggregator.Some?)
    && (user, ruleId) in t.params
    && exists granted :: Grants(granted, c, ap.rules) && t.params[(user, ruleId)] == Leash.Installed(granted, ap.accountId, maxCalls, window)
  }

  /** A day of ledgers. */
  const DAY_LEDGERS: nat := 17_280

  /** The aggregator configured, or the network's own. */
  function WithAggregator(c: Contracts, fallback: Address): Contracts {
    c.(aggregator := Some(if c.aggregator.Some? then c.aggregator.value else fallback))
  }

  /**
    * Derives the permissions and installs them: refused exactly for days outside 1..30, for an invalid autopilot, and for the
    * zeros the policy refuses. The rule lasts for the days asked, from the ledger of the grant.
    */
  method GrantAgent(ap: Schema.SdkAutopilot, c: Contracts, fallback: Address, s: Store, ruleId: nat, user: Address, ledger: nat, days: int, maxCalls: nat, window: nat)
    returns (r: Option<Store>, until: int)
    ensures Schema.Valid(ap) ==> Schema.Typed(ap)
    ensures r.Some? <==>
            && 1 <= days <= 30 && Schema.Valid(ap) && Decimal.Parse(ap.accountId) != 0 && maxCalls != 0 && window != 0
    ensures r.Some? ==> Leashed(r.value, WithAggregator(c, fallback), Schema.ToContract(ap), ruleId, user, maxCalls, window)
    ensures r.Some? ==> until == ledger + days * DAY_LEDGERS
    ensures r.Some? ==> r.value.windows == s.windows && r.value.sessions == s.sessions
    ensures r.Some? ==> forall k :: k in s.params && k != (user, ruleId) ==> k in r.value.params && r.value.params[k] == s.params[k]
  {
    until := ledger + days * DAY_LEDGERS;
    if Schema.Valid(ap) {
      Schema.ValidIsTyped(ap);
    }
    if !(1 <= days <= 30) { return None, until; }
    var known := WithAggregator(c, fallback);
    var granted := PermissionsFor(ap, known);
    if granted.None? { return None, until; }
    var account := Schema.ToContract(ap).accountId;
    assert (known.router, TICK) in granted.value.allowedCalls;
    match Install(s, Leash.Installed(granted.value, account, maxCalls, window), ruleId, user)
    case Accepted(after) => r := Some(after);
    case Rejected(_) => r := None;
  }

  /** What the walk's outcome calls for. */
  function PlanChosen(choice: Option<Router.Choice>): Option<Plan> {
    if choice.None? then None else Some(choice.value.plan)
  }

  lemma ChosenSwapHasAggregator(c: Contracts, env: Settings, s: Registry.Storage, w: World, user: Address, id: nat, choice: Router.Choice)
    requires Leash.SameContracts(c, env) && (user, id) in s.autopilots
    requires Router.Choose(env, s, w, user, id, s.autopilots[(user, id)]) == Ok(Some(choice))
    requires Swaps(s.autopilots[(user, id)]) ==> c.aggregator.Some?
    ensures exists r :: r in s.autopilots[(user, id)].rules && Leash.PlanOf(c, r.action, choice.plan)
    ensures choice.plan.Swap? ==> c.aggregator.Some?
  {
    var ap := s.autopilots[(user, id)];
    Walks.ChooseIsFirst(env, s, w, user, id, ap, choice);
    var r := ap.rules[choice.index];
    assert r in ap.rules;
    Leash.PlansArePlansOf(c, env, w, user, ap.accountId, r.action, choice.plan);
  }

  /**
    * End to end: once the agent is granted for the autopilot the router stores, then in every world and for every rule the
    * tick chooses, the whole tree of that tick passes the policy while the window has room for four calls, and the router can
    * close the session after it.
    */
  lemma GrantedTicksPass(c: Contracts, env: Settings, s: Registry.Storage, w: World, user: Address, id: nat,
                         t: Store, ruleId: nat, maxCalls: nat, window: nat, choice: Option<Router.Choice>)
    requires Leash.SameContracts(c, env) && (user, id) in s.autopilots
    requires Leashed(t, c, s.autopilots[(user, id)], ruleId, user, maxCalls, window)
    requires Router.Choose(env, s, w, user, id, s.autopilots[(user, id)]) == Ok(choice)
    requires Leash.Spent(t, (user, ruleId)) + 4 <= maxCalls
    ensures PlanChosen(choice).Some? && PlanChosen(choice).value.Swap? ==> c.aggregator.Some?
    ensures var tree := Leash.Tree(c, user, s.autopilots[(user, id)].accountId, PlanChosen(choice));
            var r := Leash.EnforceAll(t, tree, ruleId, user, w.ledger);
            && r.Accepted? && EndSession(r.value.sessions, user, c.router).Accepted?
            && Leashed(r.value, c, s.autopilots[(user, id)], ruleId, user, maxCalls, window)
            && Leash.Spent(r.value, (user, ruleId)) <= Leash.Spent(t, (user, ruleId)) + 4
  {
    var ap := s.autopilots[(user, id)];
    var granted :| Grants(granted, c, ap.rules) && t.params[(user, ruleId)] == Leash.Installed(granted, ap.accountId, maxCalls, window);
    if choice.Some? {
      ChosenSwapHasAggregator(c, env, s, w, user, id, choice.value);
    }
    TreeIsSmall(c, user, ap.accountId, PlanChosen(choice));
    Leash.PermissionsAreEnough(c, ap.rules, granted, PlanChosen(choice), t, ruleId, user, ap.accountId, maxCalls, window, w.ledger);
  }

  lemma TreeIsSmall(c: Contracts, user: Address, account: nat, plan: Option<Plan>)
    requires plan.Some? && plan.value.Swap? ==> c.aggregator.Some?
    ensures |Leash.Tree(c, user, account, plan)| <= 4
  {
  }

  // ---- After the tick ----

  /**
    * No call of the agent is accepted after a committed tick until the next accepted tick, whatever happens to the policy
    * between: the tick closed the session on both of its return paths.
    */
  lemma KeyIsIdleAfterATick(ext: Engine.Outside, env: Settings, s: Registry.Storage, w: World, user: Address, id: nat, route: Option<Engine.Route>,
                            t: Store, steps: seq<PolicyRuns.Step>, q: nat)
    requires Router.TickOf(ext, env, s, w, user, id, route).Ok? && env.policy.Some?
    requires t.sessions == Router.TickOf(ext, env, s, w, user, id, route).value.1.sessions
    requires q < |steps| && steps[q].Call? && steps[q].account == user && PolicyRuns.Took(t, steps, q)
    ensures exists i :: 0 <= i <= q && PolicyRuns.Ticked(t, steps, user, i) && steps[i].ledger == steps[q].ledger
  {
    Walks.TickClosesTheSession(ext, env, s, w, user, id, route);
    if !PolicyRuns.Ticked(t, steps, user, q) {
      PolicyRuns.QuietUntilTheNextTick(t, steps, user, q);
    }
  }

  // ---- Which transfers ----

  /** An action's plan transfers this token to this recipient. */
  predicate TransfersTo(c: Contracts, a: Action, token: Address, to: Address) {
    || ((Supplies(a) || Repays(a)) && token == c.usdc && to == c.pool)
    || (SwapInput(c, a) == Some(token) && c.aggregator == Some(to))
  }

  /** Some rule lends, and some rule swaps the token. */
  ghost predicate Lends(rules: seq<Rule>) {
    exists r :: r in rules && (Supplies(r.action) || Repays(r.action))
  }

  ghost predicate Sells(c: Contracts, rules: seq<Rule>, token: Address) {
    exists r :: r in rules && SwapInput(c, r.action) == Some(token)
  }

  /** The policy lets the wallet transfer the token to the recipient inside a tick. */
  predicate TransferPermitted(granted: AgentPermissions, account: nat, user: Address, token: Address, to: Address) {
    Leash.Permitted(Leash.Installed(granted, account, 1, 1), Leash.TransferContext(token, user, to), user)
  }

  /** Every transfer a rule makes is permitted. */
  lemma UsedTransfersArePermitted(c: Contracts, ap: Autopilot, granted: AgentPermissions, user: Address, r: Rule, token: Address, to: Address)
    requires Grants(granted, c, ap.rules) && r in ap.rules && TransfersTo(c, r.action, token, to)
    ensures TransferPermitted(granted, ap.accountId, user, token, to)
  {
    assert Makes(c, r.action, (token, TRANSFER));
    assert Pays(c, r.action, to);
  }

  /** A pair of an autopilot's permissions that none of its rules makes. */
  ghost predicate UnusedPair(c: Contracts, ap: Autopilot, token: Address, to: Address) {
    Lends(ap.rules) &&
    (|| (to == c.pool && c.aggregator != Some(to) && token != c.usdc && Sells(c, ap.rules, token))
     || (c.aggregator == Some(to) && to != c.pool && token == c.usdc && !Sells(c, ap.rules, token) && Swaps(ap)))
  }

  lemma PermittedPairs(c: Contracts, ap: Autopilot, granted: AgentPermissions, user: Address, token: Address, to: Address)
    requires Grants(granted, c, ap.rules) && (Swaps(ap) ==> c.aggregator.Some?)
    ensures TransferPermitted(granted, ap.accountId, user, token, to)
       <==> && ((Lends(ap.rules) && token == c.usdc) || Sells(c, ap.rules, token))
            && ((Lends(ap.rules) && to == c.pool) || (Swaps(ap) && c.aggregator == Some(to)))
  {
    TransferableTokens(c, ap, granted, token);
    PayableRecipients(c, ap, granted, to);
  }

  lemma TransferableTokens(c: Contracts, ap: Autopilot, granted: AgentPermissions, token: Address)
    requires Grants(granted, c, ap.rules)
    ensures (token, TRANSFER) in granted.allowedCalls <==> (Lends(ap.rules) && token == c.usdc) || Sells(c, ap.rules, token)
  {
    if (token, TRANSFER) in granted.allowedCalls {
      var r :| r in ap.rules && Makes(c, r.action, (token, TRANSFER));
    }
    if Lends(ap.rules) && token == c.usdc {
      var r :| r in ap.rules && (Supplies(r.action) || Repays(r.action));
      assert Makes(c, r.action, (token, TRANSFER));
    }
    if Sells(c, ap.rules, token) {
      var r :| r in ap.rules && SwapInput(c, r.action) == Some(token);
      assert Makes(c, r.action, (token, TRANSFER));
    }
  }

  lemma PayableRecipients(c: Contracts, ap: Autopilot, granted: AgentPermissions, to: Address)
    requires Grants(granted, c, ap.rules) && (Swaps(ap) ==> c.aggregator.Some?)
    ensures to in granted.transferRecipients <==> (Lends(ap.rules) && to == c.pool) || (Swaps(ap) && c.aggregator == Some(to))
  {
    if to in granted.transferRecipients {
      var r :| r in ap.rules && Pays(c, r.action, to);
    }
    if Lends(ap.rules) && to == c.pool {
      var r :| r in ap.rules && (Supplies(r.action) || Repays(r.action));
      assert Pays(c, r.action, to);
    }
    if Swaps(ap) && c.aggregator == Some(to) {
      var r :| r in ap.rules && (r.action.SwapFromWallet? || r.action.WithdrawAndSwap?);
      assert Pays(c, r.action, to);
    }
  }

  lemma MadePairs(c: Contracts, ap: Autopilot, token: Address, to: Address)
    ensures (exists r :: r in ap.rules && TransfersTo(c, r.action, token, to))
       <==> (Lends(ap.rules) && token == c.usdc && to == c.pool) || (Sells(c, ap.rules, token) && c.aggregator == Some(to))
  {
    if Lends(ap.rules) && token == c.usdc && to == c.pool {
      var r :| r in ap.rules && (Supplies(r.action) || Repays(r.action));
      assert TransfersTo(c, r.action, token, to);
    }
    if Sells(c, ap.rules, token) && c.aggregator == Some(to) {
      var r :| r in ap.rules && SwapInput(c, r.action) == Some(token);
      assert TransfersTo(c, r.action, token, to);
    }
  }

  lemma SellersSwap(c: Contracts, ap: Autopilot, token: Address)
    requires Sells(c, ap.rules, token)
    ensures Swaps(ap)
  {
  }

  /**
    * The policy checks token and recipient apart, so it permits exactly the pairs of a token some rule transfers and a
    * recipient some rule pays. The pairs no rule makes are those of an autopilot that both lends and swaps: a token it sells,
    * other than USDC, to the lending pool; and USDC, when it sells none, to the aggregator.
    */
  lemma UnusedTransfersExactly(c: Contracts, ap: Autopilot, granted: AgentPermissions, user: Address, token: Address, to: Address)
    requires Grants(granted, c, ap.rules) && (Swaps(ap) ==> c.aggregator.Some?)
    ensures TransferPermitted(granted, ap.accountId, user, token, to) && !(exists r :: r in ap.rules && TransfersTo(c, r.action, token, to))
       <==> UnusedPair(c, ap, token, to)
  {
    PermittedPairs(c, ap, granted, user, token, to);
    MadePairs(c, ap, token, to);
    if Sells(c, ap.rules, token) {
      SellersSwap(c, ap, token);
    }
  }

  // ---- What the agent can do at most ----

  /** A call some rule makes, on the autopilot's own account, paying nobody but the wallet, the pool or the aggregator. */
  ghost predicate Confined(c: Contracts, ap: Autopilot, user: Address, context: Context) {
    && context.Contract?
    && ((context.contract, context.fnName) == (c.router, TICK) || exists r :: r in ap.rules && Makes(c, r.action, (context.contract, context.fnName)))
    && (context.fnName in [WITHDRAW, SUPPLY, REPAY] ==> context.contract == c.controller && |context.args| >= 3 && context.args[1] == U64Val(ap.accountId))
    && (context.fnName == WITHDRAW ==> |context.args| == 4 && (context.args[3] == Void || context.args[3] == AddressVal(user)))
    && (context.fnName == EXECUTE_STRATEGY ==> c.aggregator == Some(context.contract) && |context.args| == 3 && context.args[0] == AddressVal(user))
    && (context.fnName == TRANSFER ==>
          && |context.args| == 3 && context.args[1].AddressVal?
          && ((Lends(ap.rules) && context.contract == c.usdc) || Sells(c, ap.rules, context.contract))
          && ((Lends(ap.rules) && context.args[1].address == c.pool) || (Swaps(ap) && c.aggregator == Some(context.args[1].address))))
  }

  lemma AcceptedIsConfined(c: Contracts, ap: Autopilot, t: Store, ruleId: nat, user: Address, maxCalls: nat, window: nat,
                           context: Context, signers: nat, now: nat)
    requires Leashed(t, c, ap, ruleId, user, maxCalls, window)
    requires Enforce(t, context, signers, ruleId, user, now).Accepted?
    ensures Confined(c, ap, user, context)
  {
    var granted :| Grants(granted, c, ap.rules) && t.params[(user, ruleId)] == Leash.Installed(granted, ap.accountId, maxCalls, window);
    PolicyRuns.AcceptedCallIsConfined(t, context, signers, ruleId, user, now);
    if context.fnName == TRANSFER {
      TransferableTokens(c, ap, granted, context.contract);
      PayableRecipients(c, ap, granted, context.args[1].address);
    }
  }

  /** In every history after the grant, until the parameters are touched again, every call the policy accepts is confined so. */
  lemma GrantedCallsAreConfined(c: Contracts, ap: Autopilot, t: Store, ruleId: nat, user: Address, maxCalls: nat, window: nat,
                                steps: seq<PolicyRuns.Step>, q: nat)
    requires Leashed(t, c, ap, ruleId, user, maxCalls, window) && PolicyRuns.Undisturbed(steps, (user, ruleId))
    requires q < |steps| && PolicyRuns.AcceptedCall(t, steps, q, (user, ruleId))
    ensures Confined(c, ap, user, steps[q].context)
  {
    PolicyRuns.ParamsStay(t, steps, (user, ruleId), q);
    AcceptedIsConfined(c, ap, PolicyRuns.StateAt(t, steps, q), ruleId, user, maxCalls, window, steps[q].context, steps[q].signers, steps[q].ledger);
  }
}
