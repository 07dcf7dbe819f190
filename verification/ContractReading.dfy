/**
  * What the router reads in an encoded autopilot: its types take their fields by position, structs by sorted key
  * (contracts/koul_router/src/lib.rs:140-225), against what the SDK meant (packages/core/src/schema.ts, codec.ts:16-59).
  */
module ContractReading {
  import opened Basics
  import opened MachineInt
  import opened RouterMath
  import opened Decimal
  import opened Codec
  import Schema
  import RouterTypes

  // ---- The contract's reading ----

  /** Values of the width a field has; anything else is refused. */
  function ReadU32(v: ScVal): Option<nat> {
    if v.ScU32? && 0 <= v.u32 <= U32_MAX then Some(v.u32) else None
  }

  function ReadU64(v: ScVal): Option<nat> {
    if v.ScU64? && 0 <= v.u64 <= U64_MAX then Some(v.u64) else None
  }

  function ReadI128(v: ScVal): Option<int> {
    if v.ScI128? && FitsI128(v.i128) then Some(v.i128) else None
  }

  /** A variant with this many fields. */
  predicate IsVariant(v: ScVal, tag: string, fields: nat) {
    v.ScVec? && |v.items| == fields + 1 && v.items[0] == ScSymbol(tag)
  }

  function ReadCmp(v: ScVal): Option<Cmp> {
    if IsVariant(v, "Below", 0) then Some(Below) else if IsVariant(v, "AtOrAbove", 0) then Some(AtOrAbove) else None
  }

  function ReadAmount(v: ScVal): Option<Amount> {
    if IsVariant(v, "All", 0) then Some(All)
    else if IsVariant(v, "Percent", 1) then (match ReadU32(v.items[1]) case Some(bps) => Some(Percent(bps)) case None => None)
    else if IsVariant(v, "Fixed", 1) then (match ReadI128(v.items[1]) case Some(x) => Some(Fixed(x)) case None => None)
    else None
  }

  function ReadCondition(v: ScVal): Option<RouterTypes.Condition> {
    if IsVariant(v, "HealthFactor", 2) then
      match (ReadCmp(v.items[1]), ReadI128(v.items[2]))
      case (Some(cmp), Some(level)) => Some(RouterTypes.HealthFactor(cmp, level))
      case _ => None
    else if IsVariant(v, "SupplyRateGap", 3) then
      match (ReadU32(v.items[1]), ReadU32(v.items[2]), ReadU32(v.items[3]))
      case (Some(over), Some(under), Some(bps)) => Some(RouterTypes.SupplyRateGap(over, under, bps))
      case _ => None
    else if IsVariant(v, "SupplyRate", 3) then
      match (ReadU32(v.items[1]), ReadCmp(v.items[2]), ReadU32(v.items[3]))
      case (Some(hub), Some(cmp), Some(bps)) => Some(RouterTypes.SupplyRate(hub, cmp, bps))
      case _ => None
    else if IsVariant(v, "FxPrice", 4) && v.items[1].ScSymbol? then
      match (ReadCmp(v.items[2]), ReadI128(v.items[3]), ReadU64(v.items[4]))
      case (Some(cmp), Some(level), Some(age)) => Some(RouterTypes.FxPrice(v.items[1].symbol, cmp, level, age))
      case _ => None
    else if IsVariant(v, "IdleBalance", 2) then
      match (ReadCmp(v.items[1]), ReadI128(v.items[2]))
      case (Some(cmp), Some(amount)) => Some(RouterTypes.IdleBalance(cmp, amount))
      case _ => None
    else if IsVariant(v, "TokenPrice", 3) && v.items[1].ScAddress? then
      match (ReadCmp(v.items[2]), ReadI128(v.items[3]))
      case (Some(cmp), Some(level)) => Some(RouterTypes.TokenPrice(v.items[1].address, cmp, level))
      case _ => None
    else if IsVariant(v, "TokenBalance", 3) && v.items[1].ScAddress? then
      match (ReadCmp(v.items[2]), ReadI128(v.items[3]))
      case (Some(cmp), Some(amount)) => Some(RouterTypes.TokenBalance(v.items[1].address, cmp, amount))
      case _ => None
    else None
  }

  function ReadAction(v: ScVal): Option<RouterTypes.Action> {
    if IsVariant(v, "MoveSupply", 3) then
      match (ReadU32(v.items[1]), ReadU32(v.items[2]), ReadAmount(v.items[3]))
      case (Some(from), Some(to), Some(amount)) => Some(RouterTypes.MoveSupply(from, to, amount))
      case _ => None
    else if IsVariant(v, "SupplyFromWallet", 2) then
      match (ReadU32(v.items[1]), ReadAmount(v.items[2]))
      case (Some(hub), Some(amount)) => Some(RouterTypes.SupplyFromWallet(hub, amount))
      case _ => None
    else if IsVariant(v, "RepayFromWallet", 2) then
      match (ReadU32(v.items[1]), ReadAmount(v.items[2]))
      case (Some(hub), Some(amount)) => Some(RouterTypes.RepayFromWallet(hub, amount))
      case _ => None
    else if IsVariant(v, "RepayWithCollateral", 3) then
      match (ReadU32(v.items[1]), ReadU32(v.items[2]), ReadAmount(v.items[3]))
      case (Some(from), Some(hub), Some(amount)) => Some(RouterTypes.RepayWithCollateral(from, hub, amount))
      case _ => None
    else if IsVariant(v, "WithdrawToWallet", 2) then
      match (ReadU32(v.items[1]), ReadAmount(v.items[2]))
      case (Some(hub), Some(amount)) => Some(RouterTypes.WithdrawToWallet(hub, amount))
      case _ => None
    else if IsVariant(v, "SwapFromWallet", 4) && v.items[1].ScAddress? && v.items[2].ScAddress? then
      match (ReadAmount(v.items[3]), ReadU32(v.items[4]))
      case (Some(amount), Some(slip)) => Some(RouterTypes.SwapFromWallet(v.items[1].address, v.items[2].address, amount, slip))
      case _ => None
    else if IsVariant(v, "WithdrawAndSwap", 4) && v.items[2].ScAddress? then
      match (ReadU32(v.items[1]), ReadAmount(v.items[3]), ReadU32(v.items[4]))
      case (Some(hub), Some(amount), Some(slip)) => Some(RouterTypes.WithdrawAndSwap(hub, v.items[2].address, amount, slip))
      case _ => None
    else None
  }

  /** A struct's fields, when the map has exactly its keys, in order. */
  predicate IsStruct(v: ScVal, keys: seq<string>) {
    v.ScMap? && |v.entries| == |keys| && forall i :: 0 <= i < |keys| ==> v.entries[i].0 == keys[i]
  }

  function ReadAll<T>(vs: seq<ScVal>, read: ScVal -> Option<T>): Option<seq<T>> {
    if vs == [] then Some([])
    else
      match (ReadAll(vs[..|vs| - 1], read), read(vs[|vs| - 1]))
      case (Some(before), Some(last)) => Some(before + [last])
      case _ => None
  }

  const RULE_KEYS: seq<string> := ["action", "conditions", "cooldown_ledgers", "match_all"]

  function ReadRule(v: ScVal): Option<RouterTypes.Rule> {
    if !IsStruct(v, RULE_KEYS) then None else ReadRuleFields(v.entries[0].1, v.entries[1].1, v.entries[2].1, v.entries[3].1)
  }

  function ReadRuleFields(action: ScVal, conditions: ScVal, cooldown: ScVal, all: ScVal): Option<RouterTypes.Rule> {
    if !conditions.ScVec? || !all.ScBool? then None
    else
      match (ReadAll(conditions.items, ReadCondition), ReadAction(action), ReadU32(cooldown))
      case (Some(cs), Some(x), Some(ledgers)) => Some(RouterTypes.Rule(cs, all.flag, x, ledgers))
      case _ => None
  }

  function ReadAutopilot(v: ScVal): Option<RouterTypes.Autopilot> {
    if !IsStruct(v, ["account_id", "rules"]) || !v.entries[1].1.ScVec? then None
    else
      match (ReadU64(v.entries[0].1), ReadAll(v.entries[1].1.items, ReadRule))
      case (Some(account), Some(rules)) => Some(RouterTypes.Autopilot(account, rules))
      case _ => None
  }

  // ---- What was meant ----

  predicate SameAmount(a: Schema.SdkAmount, x: Amount) {
    match a
    case AllOf => x == All
    case PercentOf(bps) => x.Percent? && x.bps == bps
    case FixedOf(v) => x == Fixed(Parse(v))
  }

  predicate SameCondition(c: Schema.SdkCondition, x: RouterTypes.Condition) {
    match x
    case HealthFactor(cmp, level) => c.HealthFactor? && cmp == c.cmp && level == Parse(c.levelWad)
    case SupplyRateGap(over, under, minBps) => c.SupplyRateGap? && over == c.hubOver && under == c.hubUnder && minBps == c.minBps
    case SupplyRate(hub, cmp, bps) => c.SupplyRate? && hub == c.hub && cmp == c.cmp && bps == c.bps
    case FxPrice(asset, cmp, level, maxAge) =>
      c.FxPrice? && asset == c.asset && cmp == c.cmp && level == Parse(c.level) && maxAge == Parse(c.maxAgeSecs)
    case IdleBalance(cmp, amount) => c.IdleBalance? && cmp == c.cmp && amount == Parse(c.balance)
    case TokenPrice(token, cmp, level) => c.TokenPrice? && token == c.token && cmp == c.cmp && level == Parse(c.level)
    case TokenBalance(token, cmp, amount) => c.TokenBalance? && token == c.token && cmp == c.cmp && amount == Parse(c.balance)
  }

  predicate SameAction(a: Schema.SdkAction, x: RouterTypes.Action) {
    && SameAmount(a.amount, x.amount)
    && match x
       case MoveSupply(from, to, _) => a.MoveSupply? && from == a.fromHub && to == a.toHub
       case SupplyFromWallet(hub, _) => a.SupplyFromWallet? && hub == a.hub
       case RepayFromWallet(hub, _) => a.RepayFromWallet? && hub == a.hub
       case RepayWithCollateral(from, hub, _) => a.RepayWithCollateral? && from == a.withdrawHub && hub == a.repayHub
       case WithdrawToWallet(hub, _) => a.WithdrawToWallet? && hub == a.hub
       case SwapFromWallet(tokenIn, tokenOut, _, slip) =>
         a.SwapFromWallet? && tokenIn == a.tokenIn && tokenOut == a.tokenOut && slip == a.maxSlippageBps
       case WithdrawAndSwap(hub, tokenOut, _, slip) => a.WithdrawAndSwap? && hub == a.hub && tokenOut == a.tokenOut && slip == a.maxSlippageBps
  }

  ghost predicate SameRule(r: Schema.SdkRule, x: RouterTypes.Rule) {
    && |x.conditions| == |r.conditions| && (forall i :: 0 <= i < |r.conditions| ==> SameCondition(r.conditions[i], x.conditions[i]))
    && x.matchAll == r.matchAll && SameAction(r.action, x.action) && x.cooldown == r.cooldownLedgers
  }

  ghost predicate SameAutopilot(ap: Schema.SdkAutopilot, x: RouterTypes.Autopilot) {
    x.accountId == Parse(ap.accountId) && |x.rules| == |ap.rules| && forall i :: 0 <= i < |ap.rules| ==> SameRule(ap.rules[i], x.rules[i])
  }

  // ---- The two agree ----

  lemma AmountReads(a: Schema.SdkAmount)
    requires Schema.AmountTyped(a)
    ensures ReadAmount(EncodeAmount(a)) == Some(Schema.ToAmount(a)) && SameAmount(a, Schema.ToAmount(a))
  {
  }

  lemma CmpReads(cmp: Cmp)
    ensures ReadCmp(EncodeCmp(cmp)) == Some(cmp)
  {
  }

  lemma RateReads(c: Schema.SdkCondition)
    requires Schema.ConditionTyped(c) && (c.SupplyRateGap? || c.SupplyRate?)
    ensures ReadCondition(EncodeCondition(c)) == Some(Schema.ToCondition(c)) && SameCondition(c, Schema.ToCondition(c))
  {
    if c.SupplyRate? {
      CmpReads(c.cmp);
    }
  }

  lemma LevelReads(c: Schema.SdkCondition)
    requires Schema.ConditionTyped(c) && (c.HealthFactor? || c.FxPrice? || c.IdleBalance?)
    ensures ReadCondition(EncodeCondition(c)) == Some(Schema.ToCondition(c)) && SameCondition(c, Schema.ToCondition(c))
  {
    CmpReads(c.cmp);
  }

  lemma TokenReads(c: Schema.SdkCondition)
    requires Schema.ConditionTyped(c) && (c.TokenPrice? || c.TokenBalance?)
    ensures ReadCondition(EncodeCondition(c)) == Some(Schema.ToCondition(c)) && SameCondition(c, Schema.ToCondition(c))
  {
    CmpReads(c.cmp);
  }

  lemma ConditionReads(c: Schema.SdkCondition)
    requires Schema.ConditionTyped(c)
    ensures ReadCondition(EncodeCondition(c)) == Some(Schema.ToCondition(c)) && SameCondition(c, Schema.ToCondition(c))
  {
    if c.SupplyRateGap? || c.SupplyRate? {
      RateReads(c);
    } else if c.TokenPrice? || c.TokenBalance? {
      TokenReads(c);
    } else {
      LevelReads(c);
    }
  }

  lemma ActionReads(a: Schema.SdkAction)
    requires Schema.ActionTyped(a)
    ensures ReadAction(EncodeAction(a)) == Some(Schema.ToAction(a)) && SameAction(a, Schema.ToAction(a))
  {
    AmountReads(a.amount);
  }

  lemma {:induction false} AllRead<T>(vs: seq<ScVal>, read: ScVal -> Option<T>, xs: seq<T>)
    requires |vs| == |xs| && forall i :: 0 <= i < |vs| ==> read(vs[i]) == Some(xs[i])
    ensures ReadAll(vs, read) == Some(xs)
  {
    if vs != [] {
      AllRead(vs[..|vs| - 1], read, xs[..|xs| - 1]);
      assert xs == xs[..|xs| - 1] + [xs[|xs| - 1]];
    }
  }

  lemma ConditionsRead(cs: seq<Schema.SdkCondition>, xs: seq<RouterTypes.Condition>)
    requires |xs| == |cs| && forall i :: 0 <= i < |cs| ==> Schema.ConditionTyped(cs[i]) && xs[i] == Schema.ToCondition(cs[i])
    ensures ReadAll(EncodeAll(cs, EncodeCondition), ReadCondition) == Some(xs)
    ensures forall i :: 0 <= i < |cs| ==> SameCondition(cs[i], xs[i])
  {
    forall i | 0 <= i < |cs| ensures ReadCondition(EncodeCondition(cs[i])) == Some(xs[i]) && SameCondition(cs[i], xs[i]) {
      ConditionReads(cs[i]);
    }
    AllRead(EncodeAll(cs, EncodeCondition), ReadCondition, xs);
  }

  lemma StructReads(action: ScVal, conditions: ScVal, cooldown: ScVal, all: ScVal)
    ensures ReadRule(ScMap([("action", action), ("conditions", conditions), ("cooldown_ledgers", cooldown), ("match_all", all)]))
         == ReadRuleFields(action, conditions, cooldown, all)
  {
    var v := ScMap([("action", action), ("conditions", conditions), ("cooldown_ledgers", cooldown), ("match_all", all)]);
    assert IsStruct(v, RULE_KEYS);
  }

  lemma RuleReads(r: Schema.SdkRule)
    requires Schema.RuleTyped(r)
    ensures ReadRule(EncodeRule(r)) == Some(Schema.ToRule(r)) && SameRule(r, Schema.ToRule(r))
  {
    var x := Schema.ToRule(r);
    ActionReads(r.action);
    assert forall i :: 0 <= i < |r.conditions| ==> r.conditions[i] in r.conditions;
    ConditionsRead(r.conditions, x.conditions);
    StructReads(EncodeAction(r.action), ScVec(EncodeAll(r.conditions, EncodeCondition)), ScU32(r.cooldownLedgers), ScBool(r.matchAll));
  }

  lemma RulesRead(rs: seq<Schema.SdkRule>, xs: seq<RouterTypes.Rule>)
    requires |xs| == |rs| && forall i :: 0 <= i < |rs| ==> Schema.RuleTyped(rs[i]) && xs[i] == Schema.ToRule(rs[i])
    ensures ReadAll(EncodeAll(rs, EncodeRule), ReadRule) == Some(xs)
    ensures forall i :: 0 <= i < |rs| ==> SameRule(rs[i], xs[i])
  {
    forall i | 0 <= i < |rs| ensures ReadRule(EncodeRule(rs[i])) == Some(xs[i]) && SameRule(rs[i], xs[i]) {
      RuleReads(rs[i]);
    }
    AllRead(EncodeAll(rs, EncodeRule), ReadRule, xs);
  }

  lemma AutopilotReads(account: ScVal, rules: seq<ScVal>)
    ensures ReadAutopilot(ScMap([("account_id", account), ("rules", ScVec(rules))]))
         == (match (ReadU64(account), ReadAll(rules, ReadRule))
             case (Some(id), Some(xs)) => Some(RouterTypes.Autopilot(id, xs))
             case _ => None)
  {
  }

  /** What the router reads in an encoded autopilot is what the SDK meant, field by field. */
  lemma RouterReadsWhatWasMeant(ap: Schema.SdkAutopilot)
    requires Schema.Valid(ap)
    ensures Schema.Typed(ap)
    ensures Encode(ap).Some? && ReadAutopilot(Encode(ap).value) == Some(Schema.ToContract(ap))
    ensures SameAutopilot(ap, Schema.ToContract(ap)) && RouterTypes.AutopilotOk(Schema.ToContract(ap))
  {
    Schema.ValidIsTyped(ap);
    Schema.ValidatorAgreesWithRouter(ap);
    assert forall i :: 0 <= i < |ap.rules| ==> ap.rules[i] in ap.rules;
    RulesRead(ap.rules, Schema.ToContract(ap).rules);
    AutopilotReads(U64Of(ap.accountId), EncodeAll(ap.rules, EncodeRule));
  }
}
