/**
  * The two walks over the rules agree: what `next_action` announces is what `tick` does (contracts/koul_router/src/lib.rs:
  * 969-1040).
  */
module Walks {
  import opened Basics
  import opened MachineInt
  import opened RouterMath
  import opened RouterTypes
  import opened Reads
  import opened Engine
  import opened Registry
  import opened Router
  import opened Conservation
  import AgentPolicy

  // ---- What the walk means ----

  /** Rule `i` has nothing to do: cooling down, false, or resolved to no plan. */
  predicate Idle(env: Settings, s: Storage, w: World, user: Address, id: nat, ap: Autopilot, i: nat)
    requires i < |ap.rules|
  {
    var r := ap.rules[i];
    || !Ready(LastFired(s, user, id, i), w.ledger, r.cooldown)
    || (var read := EvaluateRule(env, w, user, ap.accountId, r);
        read.Ok? && (read.value.0 ==> PlanFor(env, w, user, ap.accountId, r.action) == Ok(None)))
  }

  /** Rule `c.index` is off cooldown, holds with the states recorded, and resolves to the plan recorded. */
  predicate Due(env: Settings, s: Storage, w: World, user: Address, id: nat, ap: Autopilot, c: Choice)
    requires c.index < |ap.rules|
  {
    var r := ap.rules[c.index];
    && Ready(LastFired(s, user, id, c.index), w.ledger, r.cooldown)
    && EvaluateRule(env, w, user, ap.accountId, r) == Ok((true, c.states))
    && PlanFor(env, w, user, ap.accountId, r.action) == Ok(Some(c.plan))
  }

  lemma ConsiderMeans(env: Settings, s: Storage, w: World, user: Address, id: nat, ap: Autopilot, i: nat)
    requires i < |ap.rules|
    ensures Consider(env, s, w, user, id, ap, i) == Ok(None) <==> Idle(env, s, w, user, id, ap, i)
  {
  }

  lemma ConsiderChooses(env: Settings, s: Storage, w: World, user: Address, id: nat, ap: Autopilot, c: Choice, i: nat)
    requires i < |ap.rules|
    ensures Consider(env, s, w, user, id, ap, i) == Ok(Some(c)) <==> c.index == i && Due(env, s, w, user, id, ap, c)
  {
    if Consider(env, s, w, user, id, ap, i) == Ok(Some(c)) {
      ChosenIsDue(env, s, w, user, id, ap, c, i);
    } else if c.index == i && Due(env, s, w, user, id, ap, c) {
      DueIsChosen(env, s, w, user, id, ap, c);
    }
  }

  lemma ChosenIsDue(env: Settings, s: Storage, w: World, user: Address, id: nat, ap: Autopilot, c: Choice, i: nat)
    requires i < |ap.rules| && Consider(env, s, w, user, id, ap, i) == Ok(Some(c))
    ensures c.index == i && Due(env, s, w, user, id, ap, c)
  {
    var r := ap.rules[i];
    assert Ready(LastFired(s, user, id, i), w.ledger, r.cooldown);
    match EvaluateRule(env, w, user, ap.accountId, r)
    case Ok((true, states)) =>
      match PlanFor(env, w, user, ap.accountId, r.action)
      case Ok(Some(p)) => assert c == Choice(i, states, p);
  }

  lemma DueIsChosen(env: Settings, s: Storage, w: World, user: Address, id: nat, ap: Autopilot, c: Choice)
    requires c.index < |ap.rules| && Due(env, s, w, user, id, ap, c)
    ensures Consider(env, s, w, user, id, ap, c.index) == Ok(Some(c))
  {
  }

  lemma {:induction false} FirstVerdictIs(verdicts: seq<Checked<Option<Choice>>>, i: nat)
    requires i <= |verdicts|
    ensures var v := FirstVerdict(verdicts, i);
            if v == Ok(None) then forall j :: i <= j < |verdicts| ==> verdicts[j] == Ok(None)
            else exists at :: i <= at < |verdicts| && verdicts[at] == v && forall j :: i <= j < at ==> verdicts[j] == Ok(None)
    decreases |verdicts| - i
  {
    if i < |verdicts| && verdicts[i] == Ok(None) {
      FirstVerdictIs(verdicts, i + 1);
    }
  }

  lemma {:induction false} FirstVerdictAt(verdicts: seq<Checked<Option<Choice>>>, i: nat, at: nat)
    requires i <= at < |verdicts| && verdicts[at] != Ok(None) && (forall j :: i <= j < at ==> verdicts[j] == Ok(None))
    ensures FirstVerdict(verdicts, i) == verdicts[at]
    decreases at - i
  {
    if i < at {
      FirstVerdictAt(verdicts, i + 1, at);
    }
  }

  /** The walk stops at `c` exactly when rule `c.index` is due and every earlier rule is idle. */
  lemma ChooseIsFirst(env: Settings, s: Storage, w: World, user: Address, id: nat, ap: Autopilot, c: Choice)
    ensures Choose(env, s, w, user, id, ap) == Ok(Some(c))
       <==> && c.index < |ap.rules|
            && Due(env, s, w, user, id, ap, c)
            && forall j :: 0 <= j < c.index ==> Idle(env, s, w, user, id, ap, j)
  {
    var verdicts := Verdicts(env, s, w, user, id, ap);
    forall j | 0 <= j < |ap.rules|
      ensures verdicts[j] == Ok(None) <==> Idle(env, s, w, user, id, ap, j)
      ensures verdicts[j] == Ok(Some(c)) <==> c.index == j && Due(env, s, w, user, id, ap, c)
    {
      ConsiderMeans(env, s, w, user, id, ap, j);
      ConsiderChooses(env, s, w, user, id, ap, c, j);
    }
    FirstVerdictIs(verdicts, 0);
    if c.index < |ap.rules| && Due(env, s, w, user, id, ap, c) && forall j :: 0 <= j < c.index ==> Idle(env, s, w, user, id, ap, j) {
      FirstVerdictAt(verdicts, 0, c.index);
    }
  }

  /** It stops nowhere exactly when every rule is idle. */
  lemma ChooseNothing(env: Settings, s: Storage, w: World, user: Address, id: nat, ap: Autopilot)
    ensures Choose(env, s, w, user, id, ap) == Ok(None) <==> forall j :: 0 <= j < |ap.rules| ==> Idle(env, s, w, user, id, ap, j)
  {
    var verdicts := Verdicts(env, s, w, user, id, ap);
    forall j | 0 <= j < |ap.rules| ensures verdicts[j] == Ok(None) <==> Idle(env, s, w, user, id, ap, j) {
      ConsiderMeans(env, s, w, user, id, ap, j);
    }
    FirstVerdictIs(verdicts, 0);
    if verdicts != [] && forall j :: 0 <= j < |ap.rules| ==> Idle(env, s, w, user, id, ap, j) {
      assert FirstVerdict(verdicts, 0) == Ok(None);
    }
  }

  // ---- next_action predicts tick ----

  /** The controller pays exactly what it is asked for. */
  ghost predicate PaysInFull(ext: Outside) {
    forall w, user, account, hub, amount ::
      ext.withdraw(w, user, account, hub, amount).Ok? ==> ext.withdraw(w, user, account, hub, amount).value.1 == Some(amount)
  }

  lemma RunReports(ext: Outside, env: Settings, w: World, user: Address, account: nat, index: nat, p: Plan, route: Option<Route>)
    requires RunPlan(ext, env, w, user, account, index, p, route).Ok?
    ensures var done := RunPlan(ext, env, w, user, account, index, p, route).value.1;
            && done.index == index && done.kind == KindOf(p)
            && (Source(p).None? || p.Swap? || (PaysInFull(ext) && OnGrain(p.amount)) ==> done.amount == p.amount)
  {
    if Source(p).Some? && OnGrain(p.amount) {
      SnappedStays(p.amount);
    }
  }

  /** Whatever a plan asks a hub for is a whole number of grains, in any world. */
  lemma DrawIsOnGrain(env: Settings, w: World, user: Address, account: nat, a: Action, p: Plan)
    requires PlanFor(env, w, user, account, a) == Ok(Some(p)) && Source(p).Some?
    ensures OnGrain(p.amount)
  {
    match a
    case MoveSupply(from, _, amount) => ResolvedIsOnGrain(amount, WithdrawableIn(w, account, from).value);
    case WithdrawToWallet(hub, amount) => ResolvedIsOnGrain(amount, WithdrawableIn(w, account, hub).value);
    case WithdrawAndSwap(hub, _, amount, _) => ResolvedIsOnGrain(amount, WithdrawableIn(w, account, hub).value);
    case RepayWithCollateral(from, hub, amount) =>
      ResolvedIsOnGrain(amount, DebtBase(Debt(w, account, hub)).value);
      var h := HubOf(w, from);
      if Collateral(w, account, from) > 0 {
        WithdrawableSound(Collateral(w, account, from), h.cash, h.supplied, h.borrowed, h.maxUtilization);
      }
  }

  lemma ResolvedIsOnGrain(amount: Amount, base: int)
    requires Resolve(amount, base).Ok?
    ensures OnGrain(Resolve(amount, base).value)
  {
    var want := Want(amount, base).value;
    FloorGrainIs(if want < base then want else base);
  }

  lemma ChosenRunReports(ext: Outside, env: Settings, s: Storage, w: World, user: Address, id: nat, c: Choice, route: Option<Route>)
    requires (user, id) in s.autopilots && Choose(env, s, w, user, id, s.autopilots[(user, id)]) == Ok(Some(c))
    requires RunPlan(ext, env, w, user, s.autopilots[(user, id)].accountId, c.index, c.plan, route).Ok?
    ensures var done := RunPlan(ext, env, w, user, s.autopilots[(user, id)].accountId, c.index, c.plan, route).value.1;
            done.index == c.index && done.kind == KindOf(c.plan) && (PaysInFull(ext) ==> done.amount == c.plan.amount)
  {
    var ap := s.autopilots[(user, id)];
    ChooseIsFirst(env, s, w, user, id, ap, c);
    if Source(c.plan).Some? {
      DrawIsOnGrain(env, w, user, ap.accountId, ap.rules[c.index].action, c.plan);
    }
    RunReports(ext, env, w, user, ap.accountId, c.index, c.plan, route);
  }

  /**
    * From any state: when `next_action` announces nothing, a tick that commits does nothing; when it announces a plan, a
    * tick that commits fires that rule with that kind, and with that amount once the controller pays what it is asked.
    * Either way only the fired rule's cooldown changes. When `next_action` panics, so does the tick.
    */
  lemma NextActionPredictsTick(ext: Outside, env: Settings, s: Storage, w: World, user: Address, id: nat, route: Option<Route>)
    ensures var tick := TickOf(ext, env, s, w, user, id, route);
            match NextActionOf(env, s, w, user, id)
            case Panic(why) => tick == Panic(why)
            case Ok(None) => tick.Ok? ==> tick.value.0 == s && tick.value.2.None? && tick.value.1.(sessions := w.sessions) == w
            case Ok(Some(p)) =>
              tick.Ok? ==>
                var done := tick.value.2;
                && done.Some? && done.value.index == p.index && done.value.kind == p.kind
                && (PaysInFull(ext) ==> done.value.amount == p.amount)
                && tick.value.0 == Fire(s, user, id, p.index, w.ledger)
  {
    if (user, id) in s.autopilots {
      var choice := Choose(env, s, w, user, id, s.autopilots[(user, id)]);
      if choice.Ok? && choice.value.Some? && TickOf(ext, env, s, w, user, id, route).Ok? {
        ChosenRunReports(ext, env, s, w, user, id, choice.value.value, route);
      }
    }
  }

  lemma ChosenPlanIsSound(env: Settings, s: Storage, w: World, user: Address, id: nat, c: Choice)
    requires Exact(s) && Sane(w) && (user, id) in s.autopilots
    requires Choose(env, s, w, user, id, s.autopilots[(user, id)]) == Ok(Some(c))
    ensures var ap := s.autopilots[(user, id)];
            && c.index < |ap.rules| && ActionOk(ap.rules[c.index].action)
            && PlanFor(env, w, user, ap.accountId, ap.rules[c.index].action) == Ok(Some(c.plan))
            && Sound(env, w, user, ap.accountId, c.plan)
  {
    var ap := s.autopilots[(user, id)];
    ChooseIsFirst(env, s, w, user, id, ap, c);
    assert ap.rules[c.index] in ap.rules;
    PlanIsSound(env, w, user, ap.accountId, ap.rules[c.index].action, c.plan);
  }

  lemma {:induction false} CheckAt(env: Settings, s: Storage, w: World, user: Address, id: nat, ap: Autopilot, n: nat)
    requires n <= |ap.rules| && CheckFirst(env, s, w, user, id, ap, n).Ok?
    ensures var states := CheckFirst(env, s, w, user, id, ap, n).value;
            && |states| == n
            && forall i :: 0 <= i < n ==>
                             && states[i].ready == Ready(LastFired(s, user, id, i), w.ledger, ap.rules[i].cooldown)
                             && EvaluateRule(env, w, user, ap.accountId, ap.rules[i]) == Ok((states[i].holds, states[i].conditions))
  {
    if n > 0 {
      CheckAt(env, s, w, user, id, ap, n - 1);
    }
  }

  /** `check` shows the rule a tick fires as ready and holding, and every rule it shows so before it had nothing to move. */
  lemma CheckShowsTheFiredRule(ext: Outside, env: Settings, s: Storage, w: World, user: Address, id: nat, route: Option<Route>)
    requires (user, id) in s.autopilots
    requires var ap := s.autopilots[(user, id)]; CheckFirst(env, s, w, user, id, ap, |ap.rules|).Ok?
    requires TickOf(ext, env, s, w, user, id, route).Ok? && TickOf(ext, env, s, w, user, id, route).value.2.Some?
    ensures var ap := s.autopilots[(user, id)];
            var shown := CheckFirst(env, s, w, user, id, ap, |ap.rules|).value;
            var fired := TickOf(ext, env, s, w, user, id, route).value.2.value.index;
            && |shown| == |ap.rules| && fired < |shown| && shown[fired].ready && shown[fired].holds
            && forall j :: 0 <= j < fired && shown[j].ready && shown[j].holds ==>
                             PlanFor(env, w, user, ap.accountId, ap.rules[j].action) == Ok(None)
  {
    var ap := s.autopilots[(user, id)];
    CheckAt(env, s, w, user, id, ap, |ap.rules|);
    var c := Choose(env, s, w, user, id, ap).value.value;
    ChooseIsFirst(env, s, w, user, id, ap, c);
    RunReports(ext, env, w, user, ap.accountId, c.index, c.plan, route);
    var shown := CheckFirst(env, s, w, user, id, ap, |ap.rules|).value;
    forall j | 0 <= j < c.index && shown[j].ready && shown[j].holds
      ensures PlanFor(env, w, user, ap.accountId, ap.rules[j].action) == Ok(None)
    {
      assert Idle(env, s, w, user, id, ap, j);
    }
  }

  // ---- What a tick leaves behind ----

  /** With the policy set, a committed tick leaves the user without an open session, whether or not a rule fired. */
  lemma TickClosesTheSession(ext: Outside, env: Settings, s: Storage, w: World, user: Address, id: nat, route: Option<Route>)
    requires TickOf(ext, env, s, w, user, id, route).Ok? && env.policy.Some?
    ensures user !in TickOf(ext, env, s, w, user, id, route).value.1.sessions
  {
    var ap := s.autopilots[(user, id)];
    var choice := Choose(env, s, w, user, id, ap).value;
    var moved := if choice.None? then w else RunPlan(ext, env, w, user, ap.accountId, choice.value.index, choice.value.plan, route).value.0;
    assert CloseSession(env, moved, user).Ok?;
  }

  lemma ChosenRunConserves(ext: Outside, env: Settings, s: Storage, w: World, user: Address, id: nat, c: Choice, route: Option<Route>)
    requires Exact(s) && Sane(w) && Honest(ext, env) && (user, id) in s.autopilots
    requires Choose(env, s, w, user, id, s.autopilots[(user, id)]) == Ok(Some(c))
    requires RunPlan(ext, env, w, user, s.autopilots[(user, id)].accountId, c.index, c.plan, route).Ok?
    requires var done := RunPlan(ext, env, w, user, s.autopilots[(user, id)].accountId, c.index, c.plan, route).value.1;
             done.kind != SwapKind && done.kind != WithdrawSwapKind
    ensures var account := s.autopilots[(user, id)].accountId;
            Kept(env, w, RunPlan(ext, env, w, user, account, c.index, c.plan, route).value.0, user, account, c.plan)
  {
    var ap := s.autopilots[(user, id)];
    ChosenPlanIsSound(env, s, w, user, id, c);
    RunReports(ext, env, w, user, ap.accountId, c.index, c.plan, route);
    RunConserves(ext, env, w, user, ap.accountId, c.index, ap.rules[c.index].action, c.plan, route);
  }

  /**
    * A whole tick over honest lending contracts: the user's money is conserved, whichever rule fired, unless it swapped, and
    * the hub that rule drew on is left with cash and under its ceiling.
    */
  lemma TickConserves(ext: Outside, env: Settings, s: Storage, w: World, user: Address, id: nat, route: Option<Route>)
    requires Exact(s) && Sane(w) && Honest(ext, env)
    requires TickOf(ext, env, s, w, user, id, route).Ok?
    requires var done := TickOf(ext, env, s, w, user, id, route).value.2;
             done.Some? ==> done.value.kind != SwapKind && done.value.kind != WithdrawSwapKind
    ensures var account, after := s.autopilots[(user, id)].accountId, TickOf(ext, env, s, w, user, id, route).value.1;
            && Wealth(env, after, user, account) == Wealth(env, w, user, account)
            && Solvent(env, after, user, account)
    ensures var choice, after := Choose(env, s, w, user, id, s.autopilots[(user, id)]).value, TickOf(ext, env, s, w, user, id, route).value.1;
            choice.Some? && Source(choice.value.plan).Some? ==> WithinLimits(HubOf(after, Source(choice.value.plan).value))
  {
    var ap := s.autopilots[(user, id)];
    SaneIsSolvent(env, w, user, ap.accountId);
    var moved := w;
    var choice := Choose(env, s, w, user, id, ap).value;
    if choice.Some? {
      var c := choice.value;
      moved := RunPlan(ext, env, w, user, ap.accountId, c.index, c.plan, route).value.0;
      ChosenRunConserves(ext, env, s, w, user, id, c, route);
    }
    SessionsAreNotMoney(env, moved, CloseSession(env, moved, user).value.sessions, user, ap.accountId);
  }

  lemma SessionsAreNotMoney(env: Settings, w: World, sessions: map<Address, AgentPolicy.Session>, user: Address, account: nat)
    ensures Wealth(env, w.(sessions := sessions), user, account) == Wealth(env, w, user, account)
    ensures Solvent(env, w, user, account) ==> Solvent(env, w.(sessions := sessions), user, account)
  {
    var t := w.(sessions := sessions);
    forall h ensures Collateral(t, account, h) == Collateral(w, account, h) && Debt(t, account, h) == Debt(w, account, h) {
    }
  }
}
