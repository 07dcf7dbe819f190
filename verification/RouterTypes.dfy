/** What the router stores, and the limits it accepts (contracts/koul_router/src/lib.rs:85-225, 425-523). */
module RouterTypes {
  import opened Basics
  import opened MachineInt
  import opened RouterMath

  const MAX_RULES: nat := 32
  const MAX_CONDITIONS: nat := 3
  const MAX_SLIPPAGE_BPS: nat := 2_000

  datatype Condition =
    | HealthFactor(cmp: Cmp, level: int)
    | SupplyRateGap(over: nat, under: nat, minBps: nat)
    | SupplyRate(hub: nat, cmp: Cmp, bps: nat)
    | FxPrice(asset: Symbol, cmp: Cmp, level: int, maxAge: nat)
    | IdleBalance(cmp: Cmp, amount: int)
    | TokenPrice(token: Address, cmp: Cmp, level: int)
    | TokenBalance(token: Address, cmp: Cmp, amount: int)

  datatype Action =
    | MoveSupply(from: nat, to: nat, amount: Amount)
    | SupplyFromWallet(hub: nat, amount: Amount)
    | RepayFromWallet(hub: nat, amount: Amount)
    | RepayWithCollateral(withdrawHub: nat, repayHub: nat, amount: Amount)
    | WithdrawToWallet(hub: nat, amount: Amount)
    | SwapFromWallet(tokenIn: Address, tokenOut: Address, amount: Amount, slippage: nat)
    | WithdrawAndSwap(hub: nat, tokenOut: Address, amount: Amount, slippage: nat)

  datatype Rule = Rule(conditions: seq<Condition>, matchAll: bool, action: Action, cooldown: nat)

  datatype Autopilot = Autopilot(accountId: nat, rules: seq<Rule>)

  predicate ConditionOk(c: Condition) {
    match c
    case HealthFactor(_, level) => level > 0
    case SupplyRateGap(over, under, minBps) => over != under && minBps > 0
    case SupplyRate(_, _, bps) => bps > 0
    case FxPrice(_, _, level, maxAge) => level > 0 && maxAge > 0
    case IdleBalance(_, amount) => amount >= 0
    case TokenPrice(_, _, level) => level > 0
    case TokenBalance(_, _, amount) => amount >= 0
  }

  predicate ActionOk(a: Action) {
    match a
    case MoveSupply(from, to, amount) => from != to && AmountOk(amount)
    case SwapFromWallet(tokenIn, tokenOut, amount, slip) => tokenIn != tokenOut && SwapAmountOk(amount) && 1 <= slip <= MAX_SLIPPAGE_BPS
    case WithdrawAndSwap(_, _, amount, slip) => AmountOk(amount) && 1 <= slip <= MAX_SLIPPAGE_BPS
    case _ => AmountOk(a.amount)
  }

  predicate RuleOk(r: Rule) {
    && 0 < |r.conditions| <= MAX_CONDITIONS
    && r.cooldown > 0
    && (forall c :: c in r.conditions ==> ConditionOk(c))
    && ActionOk(r.action)
  }

  predicate AutopilotOk(ap: Autopilot) {
    0 < |ap.rules| <= MAX_RULES && forall r :: r in ap.rules ==> RuleOk(r)
  }

  // ---- The router's instance settings ----

  datatype OracleAsset = Stellar(token: Address) | Other(symbol: Symbol)
  datatype PriceSource = FromOracle(oracle: Address, asset: OracleAsset, maxAge: nat) | FixedPrice(price: int)
  datatype Feed = Feed(source: PriceSource, decimals: nat)
  datatype Settings = Settings(self: Address, controller: Address, pool: Address, usdc: Address, oracle: Address, spoke: nat,
                               feeds: map<Address, Feed>, aggregator: Option<Address>, policy: Option<Address>)

  predicate ConditionTokensKnown(env: Settings, r: Rule) {
    forall c :: c in r.conditions && c.TokenPrice? ==> c.token in env.feeds
  }

  /** The pair a rule swaps, if it swaps: a withdrawal swaps USDC. */
  function SwapPair(env: Settings, a: Action): Option<(Address, Address)> {
    match a
    case SwapFromWallet(tokenIn, tokenOut, _, _) => Some((tokenIn, tokenOut))
    case WithdrawAndSwap(_, tokenOut, _, _) => Some((env.usdc, tokenOut))
    case _ => None
  }

  function RuleTokens(env: Settings, r: Rule): Option<Reason> {
    if !ConditionTokensKnown(env, r) then Some(UnknownToken)
    else
      match SwapPair(env, r.action)
      case None => None
      case Some((tokenIn, tokenOut)) =>
        if tokenIn == tokenOut || tokenIn !in env.feeds || tokenOut !in env.feeds then Some(UnknownToken)
        else if env.aggregator.None? then Some(NotConfigured)
        else None
  }

  /** The first complaint about a token, in rule order; `None` when every token is known. */
  function TokensKnown(env: Settings, rules: seq<Rule>): Option<Reason> {
    if rules == [] then None
    else
      match RuleTokens(env, rules[0])
      case Some(why) => Some(why)
      case None => TokensKnown(env, rules[1..])
  }
}
