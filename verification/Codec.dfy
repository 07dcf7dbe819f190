/** The SDK's codec between an autopilot and the contract value the router takes (packages/core/src/codec.ts). */
module Codec {
  import opened Basics
  import opened RouterMath
  import opened Decimal
  import opened Schema

  /** The part of the contract value format the codec uses. */
  datatype ScVal =
    | ScSymbol(symbol: string)
    | ScU32(u32: int)
    | ScU64(u64: int)
    | ScI128(i128: int)
    | ScBool(flag: bool)
    | ScAddress(address: Address)
    | ScVec(items: seq<ScVal>)
    | ScMap(entries: seq<(string, ScVal)>)

  // ---- Encoding ----

  function Variant(tag: string, values: seq<ScVal>): ScVal {
    ScVec([ScSymbol(tag)] + values)
  }

  function U64Of(s: string): ScVal {
    ScU64(Parse(s))
  }

  function I128Of(s: string): ScVal {
    ScI128(Parse(s))
  }

  function EncodeCmp(c: Cmp): ScVal {
    Variant(match c case Below => "Below" case AtOrAbove => "AtOrAbove", [])
  }

  function EncodeAmount(a: SdkAmount): ScVal {
    match a
    case AllOf => Variant("All", [])
    case PercentOf(bps) => Variant("Percent", [ScU32(bps)])
    case FixedOf(v) => Variant("Fixed", [I128Of(v)])
  }

  function EncodeCondition(c: SdkCondition): ScVal {
    match c
    case HealthFactor(cmp, level) => Variant("HealthFactor", [EncodeCmp(cmp), I128Of(level)])
    case SupplyRateGap(over, under, minBps) => Variant("SupplyRateGap", [ScU32(over), ScU32(under), ScU32(minBps)])
    case SupplyRate(hub, cmp, bps) => Variant("SupplyRate", [ScU32(hub), EncodeCmp(cmp), ScU32(bps)])
    case FxPrice(asset, cmp, level, maxAge) => Variant("FxPrice", [ScSymbol(asset), EncodeCmp(cmp), I128Of(level), U64Of(maxAge)])
    case IdleBalance(cmp, amount) => Variant("IdleBalance", [EncodeCmp(cmp), I128Of(amount)])
    case TokenPrice(token, cmp, level) => Variant("TokenPrice", [ScAddress(token), EncodeCmp(cmp), I128Of(level)])
    case TokenBalance(token, cmp, amount) => Variant("TokenBalance", [ScAddress(token), EncodeCmp(cmp), I128Of(amount)])
  }

  function EncodeAction(a: SdkAction): ScVal {
    match a
    case MoveSupply(from, to, amount) => Variant("MoveSupply", [ScU32(from), ScU32(to), EncodeAmount(amount)])
    case SupplyFromWallet(hub, amount) => Variant("SupplyFromWallet", [ScU32(hub), EncodeAmount(amount)])
    case RepayFromWallet(hub, amount) => Variant("RepayFromWallet", [ScU32(hub), EncodeAmount(amount)])
    case RepayWithCollateral(from, to, amount) => Variant("RepayWithCollateral", [ScU32(from), ScU32(to), EncodeAmount(amount)])
    case WithdrawToWallet(hub, amount) => Variant("WithdrawToWallet", [ScU32(hub), EncodeAmount(amount)])
    case SwapFromWallet(tokenIn, tokenOut, amount, slip) =>
      Variant("SwapFromWallet", [ScAddress(tokenIn), ScAddress(tokenOut), EncodeAmount(amount), ScU32(slip)])
    case WithdrawAndSwap(hub, tokenOut, amount, slip) =>
      Variant("WithdrawAndSwap", [ScU32(hub), ScAddress(tokenOut), EncodeAmount(amount), ScU32(slip)])
  }

  function EncodeAll<T>(xs: seq<T>, encode: T -> ScVal): seq<ScVal> {
    seq(|xs|, i requires 0 <= i < |xs| => encode(xs[i]))
  }

  /** Map keys go in sorted order. */
  function EncodeRule(r: SdkRule): ScVal {
    ScMap([("action", EncodeAction(r.action)),
           ("conditions", ScVec(EncodeAll(r.conditions, EncodeCondition))),
           ("cooldown_ledgers", ScU32(r.cooldownLedgers)),
           ("match_all", ScBool(r.matchAll))])
  }

  /** Encoding validates first and throws on a complaint. */
  function Encode(ap: SdkAutopilot): Option<ScVal> {
    if Valid(ap) then Some(EncodeValid(ap)) else None
  }

  function EncodeValid(ap: SdkAutopilot): ScVal {
    ScMap([("account_id", U64Of(ap.accountId)), ("rules", ScVec(EncodeAll(ap.rules, EncodeRule)))])
  }

  // ---- Decoding ----

  /** A tagged union reads back as an array whose first element is a string. */
  function RawVariant(v: ScVal): Option<(string, seq<ScVal>)> {
    if v.ScVec? && v.items != [] && v.items[0].ScSymbol? then Some((v.items[0].symbol, v.items[1..])) else None
  }

  /** `String(value)` on what the value reads back as; `None` stands for text the schema cannot accept. */
  function AsString(vs: seq<ScVal>, i: nat): Option<string> {
    if i >= |vs| then None
    else
      match vs[i]
      case ScSymbol(s) => Some(s)
      case ScAddress(a) => Some(a)
      case ScU32(n) => Some(Print(n))
      case ScU64(n) => Some(Print(n))
      case ScI128(n) => Some(Print(n))
      case _ => None
  }

  /** `Number(value)`, likewise. */
  function AsNumber(vs: seq<ScVal>, i: nat): Option<int> {
    if i >= |vs| then None
    else
      match vs[i]
      case ScU32(n) => Some(n)
      case ScU64(n) => Some(n)
      case ScI128(n) => Some(n)
      case _ => None
  }

  function DecodeCmp(vs: seq<ScVal>, i: nat): Option<Cmp> {
    if i >= |vs| then None
    else
      match RawVariant(vs[i])
      case Some((tag, _)) => if tag == "Below" then Some(Below) else if tag == "AtOrAbove" then Some(AtOrAbove) else None
      case None => None
  }

  function DecodeAmount(vs: seq<ScVal>, i: nat): Option<SdkAmount> {
    if i >= |vs| then None
    else
      match RawVariant(vs[i])
      case None => None
      case Some((tag, a)) =>
        if tag == "All" then Some(AllOf)
        else if tag == "Percent" then (match AsNumber(a, 0) case Some(bps) => Some(PercentOf(bps)) case None => None)
        else if tag == "Fixed" then (match AsString(a, 0) case Some(v) => Some(FixedOf(v)) case None => None)
        else None
  }

  function DecodeCondition(v: ScVal): Option<SdkCondition> {
    match RawVariant(v)
    case None => None
    case Some((tag, a)) => ConditionFrom(tag, a)
  }

  function ConditionFrom(tag: string, a: seq<ScVal>): Option<SdkCondition> {
    if tag == "HealthFactor" then
      match (DecodeCmp(a, 0), AsString(a, 1)) case (Some(cmp), Some(level)) => Some(HealthFactor(cmp, level)) case _ => None
    else if tag == "SupplyRateGap" then
      match (AsNumber(a, 0), AsNumber(a, 1), AsNumber(a, 2)) case (Some(over), Some(under), Some(bps)) => Some(SupplyRateGap(over, under, bps)) case _ => None
    else if tag == "SupplyRate" then
      match (AsNumber(a, 0), DecodeCmp(a, 1), AsNumber(a, 2)) case (Some(hub), Some(cmp), Some(bps)) => Some(SupplyRate(hub, cmp, bps)) case _ => None
    else if tag == "FxPrice" then
      match (AsString(a, 0), DecodeCmp(a, 1), AsString(a, 2), AsString(a, 3))
      case (Some(asset), Some(cmp), Some(level), Some(age)) => Some(FxPrice(asset, cmp, level, age))
      case _ => None
    else if tag == "IdleBalance" then
      match (DecodeCmp(a, 0), AsString(a, 1)) case (Some(cmp), Some(amount)) => Some(IdleBalance(cmp, amount)) case _ => None
    else if tag == "TokenPrice" then
      match (AsString(a, 0), DecodeCmp(a, 1), AsString(a, 2)) case (Some(token), Some(cmp), Some(level)) => Some(TokenPrice(token, cmp, level)) case _ => None
    else if tag == "TokenBalance" then
      match (AsString(a, 0), DecodeCmp(a, 1), AsString(a, 2)) case (Some(token), Some(cmp), Some(amount)) => Some(TokenBalance(token, cmp, amount)) case _ => None
    else None
  }

  function DecodeAction(v: ScVal): Option<SdkAction> {
    match RawVariant(v)
    case None => None
    case Some((tag, a)) => ActionFrom(tag, a)
  }

  function ActionFrom(tag: string, a: seq<ScVal>): Option<SdkAction> {
    if tag == "MoveSupply" then
      match (AsNumber(a, 0), AsNumber(a, 1), DecodeAmount(a, 2)) case (Some(from), Some(to), Some(x)) => Some(MoveSupply(from, to, x)) case _ => None
    else if tag == "SupplyFromWallet" then
      match (AsNumber(a, 0), DecodeAmount(a, 1)) case (Some(hub), Some(x)) => Some(SupplyFromWallet(hub, x)) case _ => None
    else if tag == "RepayFromWallet" then
      match (AsNumber(a, 0), DecodeAmount(a, 1)) case (Some(hub), Some(x)) => Some(RepayFromWallet(hub, x)) case _ => None
    else if tag == "RepayWithCollateral" then
      match (AsNumber(a, 0), AsNumber(a, 1), DecodeAmount(a, 2)) case (Some(from), Some(to), Some(x)) => Some(RepayWithCollateral(from, to, x)) case _ => None
    else if tag == "WithdrawToWallet" then
      match (AsNumber(a, 0), DecodeAmount(a, 1)) case (Some(hub), Some(x)) => Some(WithdrawToWallet(hub, x)) case _ => None
    else if tag == "SwapFromWallet" then
      match (AsString(a, 0), AsString(a, 1), DecodeAmount(a, 2), AsNumber(a, 3))
      case (Some(tokenIn), Some(tokenOut), Some(x), Some(slip)) => Some(SwapFromWallet(tokenIn, tokenOut, x, slip))
      case _ => None
    else if tag == "WithdrawAndSwap" then
      match (AsNumber(a, 0), AsString(a, 1), DecodeAmount(a, 2), AsNumber(a, 3))
      case (Some(hub), Some(tokenOut), Some(x), Some(slip)) => Some(WithdrawAndSwap(hub, tokenOut, x, slip))
      case _ => None
    else None
  }

  function Lookup(entries: seq<(string, ScVal)>, key: string): Option<ScVal> {
    if entries == [] then None
    else if entries[0].0 == key then Some(entries[0].1)
    else Lookup(entries[1..], key)
  }

  function DecodeAll<T>(vs: seq<ScVal>, decode: ScVal -> Option<T>): Option<seq<T>> {
    if vs == [] then Some([])
    else
      match (DecodeAll(vs[..|vs| - 1], decode), decode(vs[|vs| - 1]))
      case (Some(before), Some(last)) => Some(before + [last])
      case _ => None
  }

  function DecodeRule(v: ScVal): Option<SdkRule> {
    if !v.ScMap? then None
    else
      match (Lookup(v.entries, "conditions"), Lookup(v.entries, "match_all"), Lookup(v.entries, "action"), Lookup(v.entries, "cooldown_ledgers"))
      case (Some(ScVec(cs)), Some(ScBool(all)), Some(action), Some(ScU32(cooldown))) =>
        (match (DecodeAll(cs, DecodeCondition), DecodeAction(action))
         case (Some(conditions), Some(act)) => Some(SdkRule(conditions, all, act, cooldown))
         case _ => None)
      case _ => None
  }

  /** Decoding ends with the schema, which throws on anything it does not accept. */
  function Decode(v: ScVal): Option<SdkAutopilot> {
    if !v.ScMap? then None
    else
      match (Lookup(v.entries, "account_id"), Lookup(v.entries, "rules"))
      case (Some(ScU64(account)), Some(ScVec(rs))) =>
        (match DecodeAll(rs, DecodeRule)
         case Some(rules) => var ap := SdkAutopilot(Print(account), rules); if SchemaOk(ap) then Some(ap) else None
         case None => None)
      case _ => None
  }

  // ---- Round trip ----

  lemma AmountRoundTrip(a: SdkAmount, vs: seq<ScVal>, i: nat)
    requires AmountSchema(a) && i < |vs| && vs[i] == EncodeAmount(a)
    ensures DecodeAmount(vs, i) == Some(a)
  {
    if a.FixedOf? {
      PrintIntParse(a.value);
    }
  }

  lemma CmpRoundTrip(c: Cmp, vs: seq<ScVal>, i: nat)
    requires i < |vs| && vs[i] == EncodeCmp(c)
    ensures DecodeCmp(vs, i) == Some(c)
  {
  }

  lemma VariantReads(tag: string, values: seq<ScVal>)
    ensures RawVariant(Variant(tag, values)) == Some((tag, values))
  {
  }

  lemma ConditionRoundTrip(c: SdkCondition)
    requires ConditionSchema(c)
    ensures DecodeCondition(EncodeCondition(c)) == Some(c)
  {
    match c
    case HealthFactor(cmp, level) =>
      var a := [EncodeCmp(cmp), I128Of(level)];
      VariantReads("HealthFactor", a);
      CmpRoundTrip(cmp, a, 0);
      PrintIntParse(level);
    case SupplyRateGap(over, under, bps) =>
      VariantReads("SupplyRateGap", [ScU32(over), ScU32(under), ScU32(bps)]);
    case SupplyRate(hub, cmp, bps) =>
      var a := [ScU32(hub), EncodeCmp(cmp), ScU32(bps)];
      VariantReads("SupplyRate", a);
      CmpRoundTrip(cmp, a, 1);
    case FxPrice(asset, cmp, level, age) => FxRoundTrip(asset, cmp, level, age);
    case IdleBalance(cmp, amount) =>
      var a := [EncodeCmp(cmp), I128Of(amount)];
      VariantReads("IdleBalance", a);
      CmpRoundTrip(cmp, a, 0);
      PrintIntParse(amount);
    case TokenPrice(token, cmp, level) =>
      TokenRoundTrip("TokenPrice", token, cmp, level);
    case TokenBalance(token, cmp, amount) =>
      TokenRoundTrip("TokenBalance", token, cmp, amount);
  }

  lemma FxRoundTrip(asset: string, cmp: Cmp, level: string, age: string)
    requires Canonical(level) && Canonical(age)
    ensures DecodeCondition(EncodeCondition(FxPrice(asset, cmp, level, age))) == Some(FxPrice(asset, cmp, level, age))
  {
    var a := [ScSymbol(asset), EncodeCmp(cmp), I128Of(level), U64Of(age)];
    VariantReads("FxPrice", a);
    CmpRoundTrip(cmp, a, 1);
    PrintIntParse(level);
    PrintIntParse(age);
    assert AsString(a, 2) == Some(level) && AsString(a, 3) == Some(age);
  }

  lemma TokenRoundTrip(tag: string, token: Address, cmp: Cmp, value: string)
    requires Canonical(value) && (tag == "TokenPrice" || tag == "TokenBalance")
    ensures DecodeCondition(Variant(tag, [ScAddress(token), EncodeCmp(cmp), I128Of(value)]))
         == Some(if tag == "TokenPrice" then TokenPrice(token, cmp, value) else TokenBalance(token, cmp, value))
  {
    var a := [ScAddress(token), EncodeCmp(cmp), I128Of(value)];
    VariantReads(tag, a);
    CmpRoundTrip(cmp, a, 1);
    PrintIntParse(value);
    assert AsString(a, 0) == Some(token) && AsString(a, 2) == Some(value);
  }

  lemma ActionRoundTrip(x: SdkAction)
    requires ActionSchema(x)
    ensures DecodeAction(EncodeAction(x)) == Some(x)
  {
    var (tag, a) := RawVariant(EncodeAction(x)).value;
    var at := if x.MoveSupply? || x.RepayWithCollateral? || x.SwapFromWallet? || x.WithdrawAndSwap? then 2 else 1;
    AmountRoundTrip(x.amount, a, at);
  }

  lemma {:induction false} AllRoundTrip<T>(xs: seq<T>, encode: T -> ScVal, decode: ScVal -> Option<T>)
    requires forall i :: 0 <= i < |xs| ==> decode(encode(xs[i])) == Some(xs[i])
    ensures DecodeAll(EncodeAll(xs, encode), decode) == Some(xs)
  {
    if xs != [] {
      var rest := xs[..|xs| - 1];
      AllRoundTrip(rest, encode, decode);
      assert EncodeAll(xs, encode)[..|xs| - 1] == EncodeAll(rest, encode);
      assert xs == rest + [xs[|xs| - 1]];
    }
  }

  lemma RuleRoundTrip(r: SdkRule)
    requires RuleSchema(r)
    ensures DecodeRule(EncodeRule(r)) == Some(r)
  {
    forall i | 0 <= i < |r.conditions| ensures DecodeCondition(EncodeCondition(r.conditions[i])) == Some(r.conditions[i]) {
      assert r.conditions[i] in r.conditions;
      ConditionRoundTrip(r.conditions[i]);
    }
    AllRoundTrip(r.conditions, EncodeCondition, DecodeCondition);
    ActionRoundTrip(r.action);
    RuleLookups(EncodeAction(r.action), ScVec(EncodeAll(r.conditions, EncodeCondition)), ScU32(r.cooldownLedgers), ScBool(r.matchAll));
  }

  lemma RuleLookups(action: ScVal, conditions: ScVal, cooldown: ScVal, all: ScVal)
    ensures var entries := [("action", action), ("conditions", conditions), ("cooldown_ledgers", cooldown), ("match_all", all)];
            && Lookup(entries, "action") == Some(action)
            && Lookup(entries, "conditions") == Some(conditions)
            && Lookup(entries, "cooldown_ledgers") == Some(cooldown)
            && Lookup(entries, "match_all") == Some(all)
  {
    var e3 := [("match_all", all)];
    var e2 := [("cooldown_ledgers", cooldown)] + e3;
    var e1 := [("conditions", conditions)] + e2;
    var e0 := [("action", action)] + e1;
    assert e0 == [("action", action), ("conditions", conditions), ("cooldown_ledgers", cooldown), ("match_all", all)];
    LookupSkips("action", action, e1, "conditions");
    LookupSkips("action", action, e1, "cooldown_ledgers");
    LookupSkips("conditions", conditions, e2, "cooldown_ledgers");
    LookupSkips("action", action, e1, "match_all");
    LookupSkips("conditions", conditions, e2, "match_all");
    LookupSkips("cooldown_ledgers", cooldown, e3, "match_all");
  }

  lemma LookupSkips(key: string, v: ScVal, rest: seq<(string, ScVal)>, wanted: string)
    requires key != wanted
    ensures Lookup([(key, v)] + rest, wanted) == Lookup(rest, wanted)
  {
    assert ([(key, v)] + rest)[1..] == rest;
  }

  lemma EncodedReads(ap: SdkAutopilot)
    requires SchemaOk(ap)
    ensures Decode(EncodeValid(ap)) == Some(ap)
  {
    forall i | 0 <= i < |ap.rules| ensures DecodeRule(EncodeRule(ap.rules[i])) == Some(ap.rules[i]) {
      assert ap.rules[i] in ap.rules;
      RuleRoundTrip(ap.rules[i]);
    }
    AllRoundTrip(ap.rules, EncodeRule, DecodeRule);
    PrintIntParse(ap.accountId);
    var rules := [("rules", ScVec(EncodeAll(ap.rules, EncodeRule)))];
    LookupSkips("account_id", U64Of(ap.accountId), rules, "rules");
    assert EncodeValid(ap).entries == [("account_id", U64Of(ap.accountId))] + rules;
    assert Lookup(EncodeValid(ap).entries, "account_id") == Some(U64Of(ap.accountId));
    assert Lookup(EncodeValid(ap).entries, "rules") == Some(ScVec(EncodeAll(ap.rules, EncodeRule)));
  }

  /** What the SDK sends to the router reads back as exactly what was sent, for every autopilot it accepts. */
  lemma CodecRoundTrip(ap: SdkAutopilot)
    requires Valid(ap)
    ensures Encode(ap).Some? && Decode(Encode(ap).value) == Some(ap)
  {
    EncodedReads(ap);
  }

  /** So two different autopilots never encode alike. */
  lemma EncodeIsInjective(a: SdkAutopilot, b: SdkAutopilot)
    requires Valid(a) && Valid(b) && Encode(a) == Encode(b)
    ensures a == b
  {
    CodecRoundTrip(a);
    CodecRoundTrip(b);
  }
}
