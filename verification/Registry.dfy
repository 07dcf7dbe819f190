/** The router's own storage and what every entry point keeps true of it (contracts/koul_router/src/lib.rs:525-559, 894-966). */
module Registry {
  import opened Basics
  import opened MachineInt
  import opened RouterMath
  import opened RouterTypes

  /** Autopilots and last-fired ledgers by user, id and rule; the two registries the keeper enumerates. An empty vector is absent. */
  datatype Storage = Storage(autopilots: map<(Address, nat), Autopilot>, lastFired: map<(Address, nat, nat), nat>,
                             ids: map<Address, seq<nat>>, users: seq<Address>)

  const EMPTY: Storage := Storage(map[], map[], map[], [])

  function IdsOf(s: Storage, user: Address): seq<nat> {
    if user in s.ids then s.ids[user] else []
  }

  function LastFired(s: Storage, user: Address, id: nat, index: nat): nat {
    if (user, id, index) in s.lastFired then s.lastFired[(user, id, index)] else 0
  }

  // ---- Removing from a vector ----

  function Without<T(==)>(v: seq<T>, x: T): seq<T> {
    if v == [] then []
    else if v[|v| - 1] == x then Without(v[..|v| - 1], x)
    else Without(v[..|v| - 1], x) + [v[|v| - 1]]
  }

  method VecRemove<T(==)>(v: seq<T>, x: T) returns (out: seq<T>)
    ensures out == Without(v, x)
  {
    out := [];
    for i := 0 to |v|
      invariant out == Without(v[..i], x)
    {
      assert v[..i + 1][..i] == v[..i];
      if v[i] != x {
        out := out + [v[i]];
      }
    }
    assert v[..|v|] == v;
  }

  ghost predicate Distinct<T>(v: seq<T>) {
    forall i, j :: 0 <= i < j < |v| ==> v[i] != v[j]
  }

  lemma {:induction false} WithoutHas<T>(v: seq<T>, x: T)
    ensures forall y :: y in Without(v, x) <==> y in v && y != x
    ensures Distinct(v) ==> Distinct(Without(v, x))
  {
    if v != [] {
      var last := v[|v| - 1];
      assert v == v[..|v| - 1] + [last];
      WithoutHas(v[..|v| - 1], x);
      if Distinct(v) {
        assert Distinct(v[..|v| - 1]);
        assert last !in v[..|v| - 1];
      }
    }
  }

  /** The rest keeps its order: removing the one `x` from between two stretches joins them. */
  lemma {:induction false} WithoutKeepsOrder<T>(before: seq<T>, x: T, after: seq<T>)
    requires x !in before && x !in after
    ensures Without(before + [x] + after, x) == before + after
  {
    var v := before + [x] + after;
    if after == [] {
      assert v[..|v| - 1] == before;
      WithoutAbsent(before, x);
      assert before + after == before;
    } else {
      var rest := after[..|after| - 1];
      assert v[..|v| - 1] == before + [x] + rest;
      WithoutKeepsOrder(before, x, rest);
      assert before + after == before + rest + [after[|after| - 1]];
    }
  }

  lemma {:induction false} WithoutAbsent<T>(v: seq<T>, x: T)
    requires x !in v
    ensures Without(v, x) == v
  {
    if v != [] {
      assert v == v[..|v| - 1] + [v[|v| - 1]];
      WithoutAbsent(v[..|v| - 1], x);
    }
  }

  // ---- The entry points, on values ----

  function ForgetCooldowns(lastFired: map<(Address, nat, nat), nat>, user: Address, id: nat, below: nat): map<(Address, nat, nat), nat> {
    map k | k in lastFired && !(k.0 == user && k.1 == id && k.2 < below) :: lastFired[k]
  }

  /** The storage with an autopilot in its place, its cooldowns forgotten if it replaces one. */
  function Saved(s: Storage, user: Address, id: nat, ap: Autopilot): Storage {
    var ids := IdsOf(s, user);
    Storage(s.autopilots[(user, id) := ap],
            if (user, id) in s.autopilots then ForgetCooldowns(s.lastFired, user, id, MAX_RULES) else s.lastFired,
            if id in ids then s.ids else s.ids[user := ids + [id]],
            if user in s.users then s.users else s.users + [user])
  }

  function Set(env: Settings, s: Storage, user: Address, id: nat, ap: Autopilot): Checked<Storage> {
    if !AutopilotOk(ap) then Panic(BadAutopilot)
    else
      match TokensKnown(env, ap.rules)
      case Some(why) => Panic(why)
      case None => Ok(Saved(s, user, id, ap))
  }

  function Clear(s: Storage, user: Address, id: nat): Checked<Storage> {
    if (user, id) !in s.autopilots then Panic(NoAutopilot)
    else
      var ids := Without(IdsOf(s, user), id);
      Ok(Storage(s.autopilots - {(user, id)},
                 ForgetCooldowns(s.lastFired, user, id, MAX_RULES),
                 if ids == [] then s.ids - {user} else s.ids[user := ids],
                 if ids == [] then Without(s.users, user) else s.users))
  }

  function Fire(s: Storage, user: Address, id: nat, index: nat, now: nat): Storage {
    s.(lastFired := s.lastFired[(user, id, index) := now])
  }

  // ---- The invariant ----

  /** Each user with an autopilot is listed once, and nobody else. */
  ghost predicate UsersExact(s: Storage) {
    && Distinct(s.users)
    && (forall u :: u in s.users <==> u in s.ids)
    && (forall u :: u in s.ids ==> s.ids[u] != [] && Distinct(s.ids[u]))
  }

  ghost predicate Listed(s: Storage, k: (Address, nat)) {
    k in s.autopilots <==> k.1 in IdsOf(s, k.0)
  }

  ghost predicate IdsExact(s: Storage) {
    forall k: (Address, nat) :: Listed(s, k)
  }

  /** A stored cooldown belongs to a stored autopilot and to one of its rules. */
  ghost predicate CooldownsExact(s: Storage) {
    && (forall k :: k in s.autopilots ==> AutopilotOk(s.autopilots[k]))
    && (forall k :: k in s.lastFired ==> (k.0, k.1) in s.autopilots && k.2 < |s.autopilots[(k.0, k.1)].rules|)
  }

  ghost predicate Exact(s: Storage) {
    UsersExact(s) && IdsExact(s) && CooldownsExact(s)
  }

  lemma SavedKeepsUsers(s: Storage, user: Address, id: nat, ap: Autopilot)
    requires UsersExact(s)
    ensures UsersExact(Saved(s, user, id, ap))
  {
  }

  lemma SavedKeepsIds(s: Storage, user: Address, id: nat, ap: Autopilot)
    requires IdsExact(s)
    ensures IdsExact(Saved(s, user, id, ap))
  {
    assert Listed(s, (user, id));
    forall k ensures Listed(Saved(s, user, id, ap), k) {
      assert Listed(s, k);
    }
  }

  lemma SavedKeepsCooldowns(s: Storage, user: Address, id: nat, ap: Autopilot)
    requires CooldownsExact(s) && AutopilotOk(ap)
    ensures CooldownsExact(Saved(s, user, id, ap))
    ensures forall i :: (user, id, i) !in Saved(s, user, id, ap).lastFired
  {
    CooldownsForgotten(s, user, id);
  }

  lemma SetKeepsExact(env: Settings, s: Storage, user: Address, id: nat, ap: Autopilot)
    requires Exact(s) && Set(env, s, user, id, ap).Ok?
    ensures Exact(Set(env, s, user, id, ap).value)
    ensures forall i :: (user, id, i) !in Set(env, s, user, id, ap).value.lastFired
  {
    SavedKeepsUsers(s, user, id, ap);
    SavedKeepsIds(s, user, id, ap);
    SavedKeepsCooldowns(s, user, id, ap);
  }

  /** A share, in hundredths of a percent, of 0.01% to 100%, or a fixed amount of at least this much. */
  predicate AmountWithin(a: Amount, least: int) {
    match a
    case All => true
    case Percent(bps) => 1 <= bps <= 10_000
    case Fixed(x) => x >= least
  }

  predicate ConditionWithin(c: Condition) {
    match c
    case HealthFactor(_, level) => level > 0
    case SupplyRateGap(over, under, minBps) => over != under && minBps > 0
    case SupplyRate(_, _, bps) => bps > 0
    case FxPrice(_, _, level, maxAge) => level > 0 && maxAge > 0
    case IdleBalance(_, amount) => amount >= 0
    case TokenPrice(_, _, level) => level > 0
    case TokenBalance(_, _, amount) => amount >= 0
  }

  /** At least a dollar of USDC, or anything of another token; two hubs to move between; up to a fifth of slippage. */
  predicate ActionWithin(a: Action) {
    && AmountWithin(a.amount, if a.SwapFromWallet? then 1 else 10_000_000)
    && (a.MoveSupply? ==> a.from != a.to)
    && (a.SwapFromWallet? || a.WithdrawAndSwap? ==> 1 <= a.slippage <= 2_000)
  }

  /** One to 32 rules, each of one to three conditions and with a cooldown. */
  predicate WithinTheLimits(ap: Autopilot) {
    && 1 <= |ap.rules| <= 32
    && forall r :: r in ap.rules ==>
                     && 1 <= |r.conditions| <= 3 && r.cooldown >= 1 && ActionWithin(r.action)
                     && forall c :: c in r.conditions ==> ConditionWithin(c)
  }

  lemma OkIsWithinTheLimits(env: Settings, ap: Autopilot)
    requires forall r :: r in ap.rules ==> Tradable(env, r)
    ensures AutopilotOk(ap) <==> WithinTheLimits(ap)
  {
    forall r | r in ap.rules
      ensures RuleOk(r) <==> 1 <= |r.conditions| <= 3 && r.cooldown >= 1 && ActionWithin(r.action) && forall c :: c in r.conditions ==> ConditionWithin(c)
    {
      assert Tradable(env, r);
      assert ActionOk(r.action) <==> ActionWithin(r.action);
      assert forall c :: ConditionOk(c) <==> ConditionWithin(c);
    }
  }

  /** Every token a rule mentions has a feed, and what it swaps is two tokens with an aggregator to swap them. */
  predicate Tradable(env: Settings, r: Rule) {
    && (forall c :: c in r.conditions && c.TokenPrice? ==> c.token in env.feeds)
    && (r.action.SwapFromWallet? ==>
          r.action.tokenIn != r.action.tokenOut && r.action.tokenIn in env.feeds && r.action.tokenOut in env.feeds && env.aggregator.Some?)
    && (r.action.WithdrawAndSwap? ==>
          env.usdc != r.action.tokenOut && env.usdc in env.feeds && r.action.tokenOut in env.feeds && env.aggregator.Some?)
  }

  lemma {:induction false} TokensKnownMeans(env: Settings, rules: seq<Rule>)
    ensures TokensKnown(env, rules).None? <==> forall r :: r in rules ==> Tradable(env, r)
  {
    if rules != [] {
      TokensKnownMeans(env, rules[1..]);
      assert rules == [rules[0]] + rules[1..];
      assert RuleTokens(env, rules[0]).None? <==> Tradable(env, rules[0]);
    }
  }

  /**
    * A save is accepted exactly for an autopilot within the limits whose tokens can be priced and traded. Then the user's `id`
    * stands for just that autopilot, as new; every other autopilot, its cooldowns and every other user's list are as they were.
    */
  lemma SaveMeans(env: Settings, s: Storage, user: Address, id: nat, ap: Autopilot)
    requires Exact(s)
    ensures Set(env, s, user, id, ap).Ok? <==> WithinTheLimits(ap) && forall r :: r in ap.rules ==> Tradable(env, r)
    ensures Set(env, s, user, id, ap).Ok? ==>
              var t := Set(env, s, user, id, ap).value;
              && t.autopilots.Keys == s.autopilots.Keys + {(user, id)} && t.autopilots[(user, id)] == ap
              && (forall k :: k in s.autopilots && k != (user, id) ==> t.autopilots[k] == s.autopilots[k])
              && (forall k :: k in t.lastFired <==> k in s.lastFired && (k.0, k.1) != (user, id))
              && (forall k :: k in t.lastFired ==> t.lastFired[k] == s.lastFired[k])
              && (forall u :: u != user ==> IdsOf(t, u) == IdsOf(s, u))
              && IdsOf(t, user) == (if id in IdsOf(s, user) then IdsOf(s, user) else IdsOf(s, user) + [id])
              && t.users == (if user in s.users then s.users else s.users + [user])
  {
    TokensKnownMeans(env, ap.rules);
    if forall r :: r in ap.rules ==> Tradable(env, r) {
      OkIsWithinTheLimits(env, ap);
    }
    CooldownsForgotten(s, user, id);
  }

  /**
    * A clear is accepted exactly when there is something to clear. Then just that autopilot, its cooldowns and its place in the
    * user's list are gone, and the user too when it was the last; the rest is as it was, and in order.
    */
  lemma ClearMeans(s: Storage, user: Address, id: nat)
    requires Exact(s)
    ensures Clear(s, user, id).Ok? <==> (user, id) in s.autopilots
    ensures Clear(s, user, id).Ok? ==>
              var t := Clear(s, user, id).value;
              && t.autopilots.Keys == s.autopilots.Keys - {(user, id)}
              && (forall k :: k in t.autopilots ==> t.autopilots[k] == s.autopilots[k])
              && (forall k :: k in t.lastFired <==> k in s.lastFired && (k.0, k.1) != (user, id))
              && (forall k :: k in t.lastFired ==> t.lastFired[k] == s.lastFired[k])
              && (forall u :: u != user ==> IdsOf(t, u) == IdsOf(s, u))
              && (forall i :: i in IdsOf(t, user) <==> i in IdsOf(s, user) && i != id)
              && (forall u :: u in t.users <==> u in s.users && (u != user || IdsOf(t, user) != []))
  {
    CooldownsForgotten(s, user, id);
    WithoutHas(IdsOf(s, user), id);
    WithoutHas(s.users, user);
    assert Listed(s, (user, id));
  }

  /** The fixed sweep over 32 rule slots leaves no cooldown of the autopilot behind, and only touches its own. */
  lemma CooldownsForgotten(s: Storage, user: Address, id: nat)
    requires CooldownsExact(s)
    ensures var kept := ForgetCooldowns(s.lastFired, user, id, MAX_RULES);
            && (forall k :: k in kept <==> k in s.lastFired && (k.0, k.1) != (user, id))
            && (forall k :: k in kept ==> kept[k] == s.lastFired[k])
            && ((user, id) !in s.autopilots ==> kept == s.lastFired)
  {
    var kept := ForgetCooldowns(s.lastFired, user, id, MAX_RULES);
    forall k ensures k in kept <==> k in s.lastFired && (k.0, k.1) != (user, id) {
      if k in s.lastFired {
        assert k.2 < |s.autopilots[(k.0, k.1)].rules| <= MAX_RULES;
      }
    }
  }

  lemma ClearKeepsExact(s: Storage, user: Address, id: nat)
    requires Exact(s) && Clear(s, user, id).Ok?
    ensures Exact(Clear(s, user, id).value)
    ensures forall i :: (user, id, i) !in Clear(s, user, id).value.lastFired
  {
    var t := Clear(s, user, id).value;
    WithoutHas(IdsOf(s, user), id);
    WithoutHas(s.users, user);
    assert Listed(s, (user, id));
    forall k ensures Listed(t, k) {
      assert Listed(s, k);
    }
    CooldownsForgotten(s, user, id);
  }

  lemma FireKeepsExact(s: Storage, user: Address, id: nat, index: nat, now: nat)
    requires Exact(s) && (user, id) in s.autopilots && index < |s.autopilots[(user, id)].rules|
    ensures Exact(Fire(s, user, id, index, now))
  {
    var t := Fire(s, user, id, index, now);
    forall k ensures Listed(t, k) {
      assert Listed(s, k);
    }
  }

  // ---- What the keeper sees ----

  function Pairs(user: Address, ids: seq<nat>): seq<(Address, nat)> {
    seq(|ids|, i requires 0 <= i < |ids| => (user, ids[i]))
  }

  /** Every autopilot as the keeper meets them: user by user, id by id. */
  ghost function Enumerate(s: Storage, users: seq<Address>): seq<(Address, nat)> {
    if users == [] then []
    else
      var u := users[|users| - 1];
      Enumerate(s, users[..|users| - 1]) + Pairs(u, IdsOf(s, u))
  }

  lemma {:induction false} EnumerateHas(s: Storage, users: seq<Address>)
    requires Exact(s) && Distinct(users) && (forall u :: u in users ==> u in s.users)
    ensures Distinct(Enumerate(s, users))
    ensures forall k :: k in Enumerate(s, users) <==> k.0 in users && k in s.autopilots
  {
    if users != [] {
      var u, rest := users[|users| - 1], users[..|users| - 1];
      assert users == rest + [u];
      EnumerateHas(s, rest);
      var ids := IdsOf(s, u);
      var mine := Pairs(u, ids);
      forall k ensures k in mine <==> k.0 == u && k.1 in ids {
        if k.0 == u && k.1 in ids {
          var i :| 0 <= i < |ids| && ids[i] == k.1;
          assert mine[i] == k;
        }
      }
      forall k ensures k in Enumerate(s, users) <==> k.0 in users && k in s.autopilots {
        assert Listed(s, k);
        assert k in Enumerate(s, users) <==> k in Enumerate(s, rest) || k in mine;
      }
    }
  }

  /** Walking `list_users` and each `list_ids` visits every stored autopilot exactly once. */
  lemma EnumerationIsExact(s: Storage)
    requires Exact(s)
    ensures Distinct(Enumerate(s, s.users))
    ensures forall k :: k in Enumerate(s, s.users) <==> k in s.autopilots
  {
    EnumerateHas(s, s.users);
    forall k ensures k in Enumerate(s, s.users) <==> k in s.autopilots {
      assert Listed(s, k);
    }
  }
}
