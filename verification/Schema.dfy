/**
  * An autopilot as the SDK handles it, and what the SDK accepts (packages/core/src/schema.ts, validate.ts). Numbers that fit
  * 32 bits are numbers, wider ones are decimal strings.
  */
module Schema {
  import opened Basics
  import opened MachineInt
  import opened RouterMath
  import RouterTypes
  import opened Decimal

  datatype SdkAmount = AllOf | PercentOf(bps: int) | FixedOf(value: string)

  datatype SdkCondition =
    | HealthFactor(cmp: Cmp, levelWad: string)
    | SupplyRateGap(hubOver: int, hubUnder: int, minBps: int)
    | SupplyRate(hub: int, cmp: Cmp, bps: int)
    | FxPrice(asset: string, cmp: Cmp, level: string, maxAgeSecs: string)
    | IdleBalance(cmp: Cmp, balance: string)
    | TokenPrice(token: Address, cmp: Cmp, level: string)
    | TokenBalance(token: Address, cmp: Cmp, balance: string)

  datatype SdkAction =
    | MoveSupply(fromHub: int, toHub: int, amount: SdkAmount)
    | SupplyFromWallet(hub: int, amount: SdkAmount)
    | RepayFromWallet(hub: int, amount: SdkAmount)
    | RepayWithCollateral(withdrawHub: int, repayHub: int, amount: SdkAmount)
    | WithdrawToWallet(hub: int, amount: SdkAmount)
    | SwapFromWallet(tokenIn: Address, tokenOut: Address, amount: SdkAmount, maxSlippageBps: int)
    | WithdrawAndSwap(hub: int, tokenOut: Address, amount: SdkAmount, maxSlippageBps: int)

  datatype SdkRule = SdkRule(conditions: seq<SdkCondition>, matchAll: bool, action: SdkAction, cooldownLedgers: int)

  datatype SdkAutopilot = SdkAutopilot(accountId: string, rules: seq<SdkRule>)

  // ---- schema.ts ----

  predicate Uint(n: int) {
    0 <= n <= U32_MAX
  }

  predicate Positive(s: string) {
    Canonical(s) && Parse(s) > 0
  }

  predicate IsBase32(c: char) {
    'A' <= c <= 'Z' || '2' <= c <= '7'
  }

  predicate ContractId(s: string) {
    |s| == 56 && s[0] == 'C' && forall i :: 1 <= i < 56 ==> IsBase32(s[i])
  }

  predicate Slippage(n: int) {
    1 <= n <= 2000
  }

  predicate AmountSchema(a: SdkAmount) {
    match a
    case AllOf => true
    case PercentOf(bps) => Uint(bps)
    case FixedOf(v) => Positive(v)
  }

  predicate ConditionSchema(c: SdkCondition) {
    match c
    case HealthFactor(_, level) => Positive(level)
    case SupplyRateGap(over, under, minBps) => Uint(over) && Uint(under) && Uint(minBps)
    case SupplyRate(hub, _, bps) => Uint(hub) && Uint(bps)
    case FxPrice(asset, _, level, maxAge) => 1 <= |asset| <= 32 && Positive(level) && Canonical(maxAge)
    case IdleBalance(_, amount) => Canonical(amount)
    case TokenPrice(token, _, level) => ContractId(token) && Positive(level)
    case TokenBalance(token, _, amount) => ContractId(token) && Canonical(amount)
  }

  predicate ActionSchema(a: SdkAction) {
    && AmountSchema(a.amount)
    && match a
       case MoveSupply(from, to, _) => Uint(from) && Uint(to)
       case SupplyFromWallet(hub, _) => Uint(hub)
       case RepayFromWallet(hub, _) => Uint(hub)
       case RepayWithCollateral(from, to, _) => Uint(from) && Uint(to)
       case WithdrawToWallet(hub, _) => Uint(hub)
       case SwapFromWallet(tokenIn, tokenOut, _, slip) => ContractId(tokenIn) && ContractId(tokenOut) && Slippage(slip)
       case WithdrawAndSwap(hub, tokenOut, _, slip) => Uint(hub) && ContractId(tokenOut) && Slippage(slip)
  }

  predicate RuleSchema(r: SdkRule) {
    && 1 <= |r.conditions| <= 3
    && (forall c :: c in r.conditions ==> ConditionSchema(c))
    && ActionSchema(r.action)
    && Uint(r.cooldownLedgers)
  }

  predicate SchemaOk(ap: SdkAutopilot) {
    Canonical(ap.accountId) && 1 <= |ap.rules| <= 32 && forall r :: r in ap.rules ==> RuleSchema(r)
  }

  // ---- validate.ts ----

  datatype Problem =
    | SchemaProblem
    | AccountExceedsU64
    | CooldownZero
    | HubsMustDiffer
    | BpsZero
    | MaxAgeZero
    | ValueExceedsI128
    | MaxAgeExceedsU64
    | PercentOutOfRange
    | TokensMustDiffer
    | BelowOneUsdc

  /** A complaint: which rule and condition it is about, if any, and what is wrong. */
  datatype Issue = Issue(rule: Option<nat>, condition: Option<nat>, problem: Problem)

  /** The i128 values a condition carries. */
  function Levels(c: SdkCondition): (levels: seq<string>)
    ensures ConditionSchema(c) ==> forall i :: 0 <= i < |levels| ==> Canonical(levels[i])
  {
    match c
    case HealthFactor(_, level) => [level]
    case FxPrice(_, _, level, _) => [level]
    case TokenPrice(_, _, level) => [level]
    case IdleBalance(_, amount) => [amount]
    case TokenBalance(_, _, amount) => [amount]
    case _ => []
  }

  predicate ConditionLimits(c: SdkCondition)
    requires ConditionSchema(c)
  {
    && (c.SupplyRateGap? ==> c.hubOver != c.hubUnder && c.minBps != 0)
    && (c.SupplyRate? ==> c.bps != 0)
    && (c.FxPrice? ==> 0 < Parse(c.maxAgeSecs) <= U64_MAX)
    && (forall i :: 0 <= i < |Levels(c)| ==> Parse(Levels(c)[i]) <= I128_MAX)
  }

  predicate ActionLimits(a: SdkAction)
    requires ActionSchema(a)
  {
    && (a.MoveSupply? ==> a.fromHub != a.toHub)
    && (a.amount.PercentOf? ==> 1 <= a.amount.bps <= 10_000)
    && (a.SwapFromWallet? ==> a.tokenIn != a.tokenOut)
    && (a.amount.FixedOf? ==> Parse(a.amount.value) <= I128_MAX && (!a.SwapFromWallet? ==> Parse(a.amount.value) >= MIN_MOVE))
  }

  predicate RuleLimits(r: SdkRule)
    requires RuleSchema(r)
  {
    r.cooldownLedgers != 0 && (forall c :: c in r.conditions ==> ConditionLimits(c)) && ActionLimits(r.action)
  }

  predicate Valid(ap: SdkAutopilot) {
    SchemaOk(ap) && Parse(ap.accountId) <= U64_MAX && forall r :: r in ap.rules ==> RuleLimits(r)
  }

  function When(bad: bool, issue: Issue): seq<Issue> {
    if bad then [issue] else []
  }

  method LevelIssues(levels: seq<string>, rule: nat, at: nat) returns (errors: seq<Issue>)
    requires forall i :: 0 <= i < |levels| ==> Canonical(levels[i])
    ensures errors == [] <==> forall i :: 0 <= i < |levels| ==> Parse(levels[i]) <= I128_MAX
    ensures forall e :: e in errors ==> e == Issue(Some(rule), Some(at), ValueExceedsI128)
  {
    errors := [];
    for i := 0 to |levels|
      invariant errors == [] <==> forall j :: 0 <= j < i ==> Parse(levels[j]) <= I128_MAX
      invariant forall e :: e in errors ==> e == Issue(Some(rule), Some(at), ValueExceedsI128)
    {
      errors := errors + When(Parse(levels[i]) > I128_MAX, Issue(Some(rule), Some(at), ValueExceedsI128));
    }
  }

  /** The complaints about one condition, pushed one check after the other. */
  method ConditionIssues(c: SdkCondition, rule: nat, at: nat) returns (errors: seq<Issue>)
    requires ConditionSchema(c)
    ensures errors == [] <==> ConditionLimits(c)
    ensures forall e :: e in errors ==> e.rule == Some(rule) && e.condition == Some(at)
  {
    errors := [];
    errors := errors + When(c.SupplyRateGap? && c.hubOver == c.hubUnder, Issue(Some(rule), Some(at), HubsMustDiffer));
    errors := errors + When(c.SupplyRateGap? && c.minBps == 0, Issue(Some(rule), Some(at), BpsZero));
    errors := errors + When(c.SupplyRate? && c.bps == 0, Issue(Some(rule), Some(at), BpsZero));
    errors := errors + When(c.FxPrice? && Parse(c.maxAgeSecs) == 0, Issue(Some(rule), Some(at), MaxAgeZero));
    var tooBig := LevelIssues(Levels(c), rule, at);
    errors := errors + tooBig;
    errors := errors + When(c.FxPrice? && Parse(c.maxAgeSecs) > U64_MAX, Issue(Some(rule), Some(at), MaxAgeExceedsU64));
  }

  method ActionIssues(a: SdkAction, rule: nat) returns (errors: seq<Issue>)
    requires ActionSchema(a)
    ensures errors == [] <==> ActionLimits(a)
    ensures forall e :: e in errors ==> e.rule == Some(rule) && e.condition == None
  {
    errors := [];
    errors := errors + When(a.MoveSupply? && a.fromHub == a.toHub, Issue(Some(rule), None, HubsMustDiffer));
    errors := errors + When(a.amount.PercentOf? && (a.amount.bps < 1 || a.amount.bps > 10_000), Issue(Some(rule), None, PercentOutOfRange));
    errors := errors + When(a.SwapFromWallet? && a.tokenIn == a.tokenOut, Issue(Some(rule), None, TokensMustDiffer));
    errors := errors + When(a.amount.FixedOf? && !a.SwapFromWallet? && Parse(a.amount.value) < MIN_MOVE, Issue(Some(rule), None, BelowOneUsdc));
    errors := errors + When(a.amount.FixedOf? && Parse(a.amount.value) > I128_MAX, Issue(Some(rule), None, ValueExceedsI128));
  }

  method RuleIssues(r: SdkRule, rule: nat) returns (errors: seq<Issue>)
    requires RuleSchema(r)
    ensures errors == [] <==> RuleLimits(r)
    ensures forall e :: e in errors ==> e.rule == Some(rule)
  {
    errors := When(r.cooldownLedgers == 0, Issue(Some(rule), None, CooldownZero));
    for j := 0 to |r.conditions|
      invariant errors == [] <==> r.cooldownLedgers != 0 && forall c :: c in r.conditions[..j] ==> ConditionLimits(c)
      invariant forall e :: e in errors ==> e.rule == Some(rule)
    {
      assert r.conditions[..j + 1] == r.conditions[..j] + [r.conditions[j]];
      var found := ConditionIssues(r.conditions[j], rule, j);
      errors := errors + found;
    }
    assert r.conditions[..|r.conditions|] == r.conditions;
    var found := ActionIssues(r.action, rule);
    errors := errors + found;
  }

  /** No complaint exactly when the autopilot is valid; a complaint about a rule names a rule that is not. */
  method ValidateAutopilot(ap: SdkAutopilot) returns (errors: seq<Issue>)
    ensures errors == [] <==> Valid(ap)
    ensures SchemaOk(ap) ==> forall e :: e in errors && e.rule.Some? ==> e.rule.value < |ap.rules| && !RuleLimits(ap.rules[e.rule.value])
  {
    if !SchemaOk(ap) { return [Issue(None, None, SchemaProblem)]; }
    errors := When(Parse(ap.accountId) > U64_MAX, Issue(None, None, AccountExceedsU64));
    for i := 0 to |ap.rules|
      invariant errors == [] <==> Parse(ap.accountId) <= U64_MAX && forall r :: r in ap.rules[..i] ==> RuleLimits(r)
      invariant forall e :: e in errors && e.rule.Some? ==> e.rule.value < i && !RuleLimits(ap.rules[e.rule.value])
    {
      assert ap.rules[..i + 1] == ap.rules[..i] + [ap.rules[i]];
      var found := RuleIssues(ap.rules[i], i);
      errors := errors + found;
    }
    assert ap.rules[..|ap.rules|] == ap.rules;
  }

  // ---- The contract value it stands for ----

  predicate AmountTyped(a: SdkAmount) {
    match a
    case AllOf => true
    case PercentOf(bps) => Uint(bps)
    case FixedOf(v) => Canonical(v) && Parse(v) <= I128_MAX
  }

  /** Every field has a value of the contract's own type; nothing is said about the limits. */
  predicate ConditionTyped(c: SdkCondition) {
    match c
    case SupplyRateGap(over, under, minBps) => Uint(over) && Uint(under) && Uint(minBps)
    case SupplyRate(hub, _, bps) => Uint(hub) && Uint(bps)
    case FxPrice(asset, _, level, maxAge) => 1 <= |asset| <= 32 && Canonical(level) && Parse(level) <= I128_MAX && Canonical(maxAge) && Parse(maxAge) <= U64_MAX
    case HealthFactor(_, level) => Canonical(level) && Parse(level) <= I128_MAX
    case IdleBalance(_, amount) => Canonical(amount) && Parse(amount) <= I128_MAX
    case TokenPrice(token, _, level) => ContractId(token) && Canonical(level) && Parse(level) <= I128_MAX
    case TokenBalance(token, _, amount) => ContractId(token) && Canonical(amount) && Parse(amount) <= I128_MAX
  }

  predicate ActionTyped(a: SdkAction) {
    && AmountTyped(a.amount)
    && match a
       case MoveSupply(from, to, _) => Uint(from) && Uint(to)
       case SupplyFromWallet(hub, _) => Uint(hub)
       case RepayFromWallet(hub, _) => Uint(hub)
       case RepayWithCollateral(from, to, _) => Uint(from) && Uint(to)
       case WithdrawToWallet(hub, _) => Uint(hub)
       case SwapFromWallet(tokenIn, tokenOut, _, slip) => ContractId(tokenIn) && ContractId(tokenOut) && Uint(slip)
       case WithdrawAndSwap(hub, tokenOut, _, slip) => Uint(hub) && ContractId(tokenOut) && Uint(slip)
  }

  predicate Typed(ap: SdkAutopilot) {
    && Canonical(ap.accountId) && Parse(ap.accountId) <= U64_MAX
    && forall r :: r in ap.rules ==> RuleTyped(r)
  }

  predicate RuleTyped(r: SdkRule) {
    && Uint(r.cooldownLedgers) && ActionTyped(r.action)
    && forall c :: c in r.conditions ==> ConditionTyped(c)
  }

  function ToAmount(a: SdkAmount): Amount
    requires AmountTyped(a)
  {
    match a
    case AllOf => All
    case PercentOf(bps) => Percent(bps)
    case FixedOf(v) => Fixed(Parse(v))
  }

  function ToCondition(c: SdkCondition): RouterTypes.Condition
    requires ConditionTyped(c)
  {
    match c
    case HealthFactor(cmp, level) => RouterTypes.HealthFactor(cmp, Parse(level))
    case SupplyRateGap(over, under, minBps) => RouterTypes.SupplyRateGap(over, under, minBps)
    case SupplyRate(hub, cmp, bps) => RouterTypes.SupplyRate(hub, cmp, bps)
    case FxPrice(asset, cmp, level, maxAge) => RouterTypes.FxPrice(asset, cmp, Parse(level), Parse(maxAge))
    case IdleBalance(cmp, amount) => RouterTypes.IdleBalance(cmp, Parse(amount))
    case TokenPrice(token, cmp, level) => RouterTypes.TokenPrice(token, cmp, Parse(level))
    case TokenBalance(token, cmp, amount) => RouterTypes.TokenBalance(token, cmp, Parse(amount))
  }

  function ToAction(a: SdkAction): RouterTypes.Action
    requires ActionTyped(a)
  {
    match a
    case MoveSupply(from, to, amount) => RouterTypes.MoveSupply(from, to, ToAmount(amount))
    case SupplyFromWallet(hub, amount) => RouterTypes.SupplyFromWallet(hub, ToAmount(amount))
    case RepayFromWallet(hub, amount) => RouterTypes.RepayFromWallet(hub, ToAmount(amount))
    case RepayWithCollateral(from, to, amount) => RouterTypes.RepayWithCollateral(from, to, ToAmount(amount))
    case WithdrawToWallet(hub, amount) => RouterTypes.WithdrawToWallet(hub, ToAmount(amount))
    case SwapFromWallet(tokenIn, tokenOut, amount, slip) => RouterTypes.SwapFromWallet(tokenIn, tokenOut, ToAmount(amount), slip)
    case WithdrawAndSwap(hub, tokenOut, amount, slip) => RouterTypes.WithdrawAndSwap(hub, tokenOut, ToAmount(amount), slip)
  }

  function ToRule(r: SdkRule): RouterTypes.Rule
    requires RuleTyped(r)
  {
    RouterTypes.Rule(seq(|r.conditions|, i requires 0 <= i < |r.conditions| => ToCondition(r.conditions[i])),
                     r.matchAll, ToAction(r.action), r.cooldownLedgers)
  }

  function ToContract(ap: SdkAutopilot): RouterTypes.Autopilot
    requires Typed(ap)
  {
    RouterTypes.Autopilot(Parse(ap.accountId), seq(|ap.rules|, i requires 0 <= i < |ap.rules| => ToRule(ap.rules[i])))
  }

  lemma ConditionsAgree(c: SdkCondition)
    requires ConditionTyped(c)
    ensures ConditionSchema(c) && ConditionLimits(c) <==> RouterTypes.ConditionOk(ToCondition(c))
  {
  }

  lemma ActionsAgree(a: SdkAction)
    requires ActionTyped(a)
    ensures ActionSchema(a) && ActionLimits(a) <==> RouterTypes.ActionOk(ToAction(a))
  {
  }

  lemma RulesAgree(r: SdkRule)
    requires RuleTyped(r)
    ensures RuleSchema(r) && RuleLimits(r) <==> RouterTypes.RuleOk(ToRule(r))
  {
    var t := ToRule(r);
    ActionsAgree(r.action);
    forall i | 0 <= i < |r.conditions|
      ensures ConditionSchema(r.conditions[i]) && ConditionLimits(r.conditions[i]) <==> RouterTypes.ConditionOk(t.conditions[i])
    {
      ConditionsAgree(r.conditions[i]);
    }
    assert |t.conditions| == |r.conditions|;
    if RouterTypes.RuleOk(t) {
      forall c | c in r.conditions ensures ConditionSchema(c) && ConditionLimits(c) {
        var i :| 0 <= i < |r.conditions| && r.conditions[i] == c;
        assert t.conditions[i] in t.conditions;
      }
    }
    if RuleSchema(r) && RuleLimits(r) {
      forall c | c in t.conditions ensures RouterTypes.ConditionOk(c) {
        var i :| 0 <= i < |t.conditions| && t.conditions[i] == c;
        assert r.conditions[i] in r.conditions;
      }
    }
  }

  /** The SDK and the router agree: for values of the contract's types, no complaint means `autopilot_ok`, and back. */
  lemma ValidatorAgreesWithRouter(ap: SdkAutopilot)
    requires Typed(ap)
    ensures Valid(ap) <==> RouterTypes.AutopilotOk(ToContract(ap))
  {
    var t := ToContract(ap);
    assert |t.rules| == |ap.rules|;
    forall i | 0 <= i < |ap.rules|
      ensures RuleSchema(ap.rules[i]) && RuleLimits(ap.rules[i]) <==> RouterTypes.RuleOk(t.rules[i])
    {
      RulesAgree(ap.rules[i]);
    }
    if RouterTypes.AutopilotOk(t) {
      forall r | r in ap.rules ensures RuleSchema(r) && RuleLimits(r) {
        var i :| 0 <= i < |ap.rules| && ap.rules[i] == r;
        assert t.rules[i] in t.rules;
      }
    }
    if Valid(ap) {
      forall r | r in t.rules ensures RouterTypes.RuleOk(r) {
        var i :| 0 <= i < |t.rules| && t.rules[i] == r;
        assert ap.rules[i] in ap.rules;
      }
    }
  }

  /** What the validator accepts always fits the contract's types. */
  lemma ValidIsTyped(ap: SdkAutopilot)
    requires Valid(ap)
    ensures Typed(ap)
  {
    forall r | r in ap.rules ensures RuleTyped(r) {
      assert RuleSchema(r) && RuleLimits(r);
      forall c | c in r.conditions ensures ConditionTyped(c) {
        ConditionFits(c);
      }
    }
  }

  lemma ConditionFits(c: SdkCondition)
    requires ConditionSchema(c) && ConditionLimits(c)
    ensures ConditionTyped(c)
  {
    if Levels(c) != [] {
      assert Parse(Levels(c)[0]) <= I128_MAX;
    }
  }
}
