/**
  * The permissions an autopilot asks for (packages/core/src/permissions.ts), against what running it takes: every plan the
  * router can run passes the policy, and nothing is allowed that no rule uses.
  */
module Permissions {
  import opened Basics
  import Schema
  import opened Registry
  import opened AgentPolicy
  import RouterTypes

  /** Where everything lives; the aggregator only matters to autopilots that swap. */
  datatype Contracts = Contracts(router: Address, controller: Address, pool: Address, usdc: Address, aggregator: Option<Address>)

  datatype AgentPermissions = AgentPermissions(allowedCalls: seq<(Address, Symbol)>, transferRecipients: seq<Address>)

  // ---- What running an action takes ----

  predicate Withdraws(a: RouterTypes.Action) {
    a.MoveSupply? || a.RepayWithCollateral? || a.WithdrawToWallet? || a.WithdrawAndSwap?
  }

  predicate Supplies(a: RouterTypes.Action) {
    a.MoveSupply? || a.SupplyFromWallet?
  }

  predicate Repays(a: RouterTypes.Action) {
    a.RepayFromWallet? || a.RepayWithCollateral?
  }

  /** The token a swap hands to the aggregator. */
  function SwapInput(c: Contracts, a: RouterTypes.Action): Option<Address> {
    match a
    case SwapFromWallet(tokenIn, _, _, _) => Some(tokenIn)
    case WithdrawAndSwap(_, _, _, _) => Some(c.usdc)
    case _ => None
  }

  /** The calls below the tick that an action makes with the wallet's authority. */
  predicate Makes(c: Contracts, a: RouterTypes.Action, call: (Address, Symbol)) {
    || (Withdraws(a) && call == (c.controller, WITHDRAW))
    || (Supplies(a) && call == (c.controller, SUPPLY))
    || (Repays(a) && call == (c.controller, REPAY))
    || ((Supplies(a) || Repays(a)) && call == (c.usdc, TRANSFER))
    || (SwapInput(c, a).Some? && c.aggregator.Some? && call == (c.aggregator.value, EXECUTE_STRATEGY))
    || (SwapInput(c, a).Some? && call == (SwapInput(c, a).value, TRANSFER))
  }

  /** Who an action's transfers go to. */
  predicate Pays(c: Contracts, a: RouterTypes.Action, to: Address) {
    || ((Supplies(a) || Repays(a)) && to == c.pool)
    || (SwapInput(c, a).Some? && c.aggregator.Some? && to == c.aggregator.value)
  }

  // ---- The derivation ----

  method Unique(xs: seq<Address>) returns (out: seq<Address>)
    ensures Distinct(out)
    ensures forall x :: x in out <==> x in xs
  {
    out := [];
    for i := 0 to |xs|
      invariant Distinct(out)
      invariant forall x :: x in out <==> x in xs[..i]
    {
      assert xs[..i + 1] == xs[..i] + [xs[i]];
      if xs[i] !in out {
        out := out + [xs[i]];
      }
    }
    assert xs[..|xs|] == xs;
  }

  predicate Swaps(ap: RouterTypes.Autopilot) {
    exists r :: r in ap.rules && (r.action.SwapFromWallet? || r.action.WithdrawAndSwap?)
  }

  method SwapInputs(c: Contracts, rules: seq<RouterTypes.Rule>) returns (tokens: seq<Address>)
    ensures forall t :: t in tokens <==> exists r :: r in rules && SwapInput(c, r.action) == Some(t)
  {
    tokens := [];
    for i := 0 to |rules|
      invariant forall t :: t in tokens <==> exists j :: 0 <= j < i && SwapInput(c, rules[j].action) == Some(t)
    {
      match SwapInput(c, rules[i].action)
      case Some(t) => tokens := tokens + [t];
      case None =>
    }
  }

  /** The list being built, one call at a time: what is in it for the flags and transfer tokens so far. */
  predicate Collected(c: Contracts, withdraw: bool, supply: bool, repay: bool, swap: bool, tokens: seq<Address>, call: (Address, Symbol)) {
    || call == (c.router, TICK)
    || (withdraw && call == (c.controller, WITHDRAW))
    || (supply && call == (c.controller, SUPPLY))
    || (repay && call == (c.controller, REPAY))
    || (swap && c.aggregator.Some? && call == (c.aggregator.value, EXECUTE_STRATEGY))
    || (call.1 == TRANSFER && call.0 in tokens)
  }

  ghost predicate AnyRule(rules: seq<RouterTypes.Rule>, p: RouterTypes.Action -> bool) {
    exists x :: x in rules && p(x.action)
  }

  lemma CollectedIsMade(c: Contracts, rules: seq<RouterTypes.Rule>, inputs: seq<Address>, tokens: seq<Address>, call: (Address, Symbol))
    requires forall t :: t in inputs <==> exists x :: x in rules && SwapInput(c, x.action) == Some(t)
    requires forall t :: t in tokens <==> t in inputs || (t == c.usdc && (AnyRule(rules, Supplies) || AnyRule(rules, Repays)))
    ensures Collected(c, AnyRule(rules, Withdraws), AnyRule(rules, Supplies), AnyRule(rules, Repays), inputs != [], tokens, call)
       <==> call == (c.router, TICK) || exists x :: x in rules && Makes(c, x.action, call)
  {
    if x :| x in rules && Makes(c, x.action, call) {
      if SwapInput(c, x.action).Some? {
        assert SwapInput(c, x.action).value in inputs;
      }
    }
    if call.1 == TRANSFER && call.0 in tokens {
      if call.0 in inputs {
        var x :| x in rules && SwapInput(c, x.action) == Some(call.0);
        assert Makes(c, x.action, call);
      } else {
        var x :| x in rules && (Supplies(x.action) || Repays(x.action));
        assert Makes(c, x.action, call);
      }
    }
    if inputs != [] && c.aggregator.Some? && call == (c.aggregator.value, EXECUTE_STRATEGY) {
      assert inputs[0] in inputs;
      var x :| x in rules && SwapInput(c, x.action) == Some(inputs[0]);
      assert Makes(c, x.action, call);
    }
  }

  lemma RecipientIsPaid(c: Contracts, rules: seq<RouterTypes.Rule>, inputs: seq<Address>, to: Address)
    requires forall t :: t in inputs <==> exists x :: x in rules && SwapInput(c, x.action) == Some(t)
    ensures (to == c.pool && (AnyRule(rules, Supplies) || AnyRule(rules, Repays))) || (inputs != [] && c.aggregator == Some(to))
       <==> exists x :: x in rules && Pays(c, x.action, to)
  {
    if x :| x in rules && Pays(c, x.action, to) {
      if SwapInput(c, x.action).Some? {
        assert SwapInput(c, x.action).value in inputs;
      }
    }
    if inputs != [] {
      assert inputs[0] in inputs;
    }
  }

  lemma SwapsIffInputs(c: Contracts, ap: RouterTypes.Autopilot, inputs: seq<Address>)
    requires forall t :: t in inputs <==> exists x :: x in ap.rules && SwapInput(c, x.action) == Some(t)
    ensures inputs != [] <==> Swaps(ap)
  {
    if inputs != [] {
      assert inputs[0] in inputs;
    }
    if x :| x in ap.rules && (x.action.SwapFromWallet? || x.action.WithdrawAndSwap?) {
      assert SwapInput(c, x.action).value in inputs;
    }
  }

  /** What is granted, as sets: the tick, each call some rule makes, each recipient some rule pays, and nothing else. */
  ghost predicate Grants(p: AgentPermissions, c: Contracts, rules: seq<RouterTypes.Rule>) {
    && (forall call :: call in p.allowedCalls <==> call == (c.router, TICK) || exists x :: x in rules && Makes(c, x.action, call))
    && (forall to :: to in p.transferRecipients <==> exists x :: x in rules && Pays(c, x.action, to))
  }

  method CollectCalls(c: Contracts, withdraw: bool, supply: bool, repay: bool, inputs: seq<Address>)
    returns (calls: seq<(Address, Symbol)>, tokens: seq<Address>)
    requires inputs != [] ==> c.aggregator.Some?
    ensures forall t :: t in tokens <==> t in inputs || (t == c.usdc && (supply || repay))
    ensures forall call :: call in calls <==> Collected(c, withdraw, supply, repay, inputs != [], tokens, call)
  {
    calls := [(c.router, TICK)];
    if withdraw { calls := calls + [(c.controller, WITHDRAW)]; }
    if supply { calls := calls + [(c.controller, SUPPLY)]; }
    if repay { calls := calls + [(c.controller, REPAY)]; }
    if inputs != [] { calls := calls + [(c.aggregator.value, EXECUTE_STRATEGY)]; }
    tokens := Unique((if supply || repay then [c.usdc] else []) + inputs);
    for i := 0 to |tokens|
      invariant forall call :: call in calls <==> Collected(c, withdraw, supply, repay, inputs != [], tokens[..i], call)
    {
      assert tokens[..i + 1] == tokens[..i] + [tokens[i]];
      calls := calls + [(tokens[i], TRANSFER)];
    }
    assert tokens[..|tokens|] == tokens;
  }

  lemma CollectedIsGranted(c: Contracts, rules: seq<RouterTypes.Rule>, inputs: seq<Address>, tokens: seq<Address>,
                           calls: seq<(Address, Symbol)>, recipients: seq<Address>)
    requires forall t :: t in inputs <==> exists x :: x in rules && SwapInput(c, x.action) == Some(t)
    requires forall t :: t in tokens <==> t in inputs || (t == c.usdc && (AnyRule(rules, Supplies) || AnyRule(rules, Repays)))
    requires forall call :: call in calls <==>
                            Collected(c, AnyRule(rules, Withdraws), AnyRule(rules, Supplies), AnyRule(rules, Repays), inputs != [], tokens, call)
    requires forall to :: to in recipients <==>
                          (to == c.pool && (AnyRule(rules, Supplies) || AnyRule(rules, Repays))) || (inputs != [] && c.aggregator == Some(to))
    ensures Grants(AgentPermissions(calls, recipients), c, rules)
  {
    forall call ensures call in calls <==> call == (c.router, TICK) || exists x :: x in rules && Makes(c, x.action, call) {
      CollectedIsMade(c, rules, inputs, tokens, call);
    }
    forall to ensures to in recipients <==> exists x :: x in rules && Pays(c, x.action, to) {
      RecipientIsPaid(c, rules, inputs, to);
    }
  }

  /** What the rules use, without a check of the autopilot; refuses exactly a swap without an aggregator. */
  method PermissionsOf(ap: RouterTypes.Autopilot, c: Contracts) returns (r: Option<AgentPermissions>)
    ensures r.None? <==> Swaps(ap) && c.aggregator.None?
    ensures r.Some? ==> Grants(r.value, c, ap.rules)
  {
    var rules := ap.rules;
    var withdraw := exists x :: x in rules && Withdraws(x.action);
    var supply := exists x :: x in rules && Supplies(x.action);
    var repay := exists x :: x in rules && Repays(x.action);
    var inputs := SwapInputs(c, rules);
    SwapsIffInputs(c, ap, inputs);
    if inputs != [] && c.aggregator.None? { return None; }
    var calls, tokens := CollectCalls(c, withdraw, supply, repay, inputs);
    var recipients := (if supply || repay then [c.pool] else []) + (if inputs != [] then [c.aggregator.value] else []);
    CollectedIsGranted(c, rules, inputs, tokens, calls, recipients);
    r := Some(AgentPermissions(calls, recipients));
  }

  /** Refuses exactly an invalid autopilot, or a swap without an aggregator; otherwise grants what its rules use. */
  method PermissionsFor(ap: Schema.SdkAutopilot, c: Contracts) returns (r: Option<AgentPermissions>)
    ensures Schema.Valid(ap) ==> Schema.Typed(ap)
    ensures r.None? <==> !Schema.Valid(ap) || (Swaps(Schema.ToContract(ap)) && c.aggregator.None?)
    ensures r.Some? ==> Grants(r.value, c, Schema.ToContract(ap).rules)
  {
    var errors := Schema.ValidateAutopilot(ap);
    if errors != [] { return None; }
    Schema.ValidIsTyped(ap);
    r := PermissionsOf(Schema.ToContract(ap), c);
  }
}
