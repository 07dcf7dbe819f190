/** The router contract: its entry points walk, store and run (contracts/koul_router/src/lib.rs:833-1041). */
module Router {
  import opened Basics
  import opened MachineInt
  import opened RouterMath
  import opened RouterTypes
  import opened Reads
  import opened Engine
  import opened Registry
  import AgentPolicy

  datatype RuleState = RuleState(ready: bool, holds: bool, conditions: seq<ConditionState>, lastFired: nat)

  /** The rule a walk stops at, with what it read and decided. */
  datatype Choice = Choice(index: nat, states: seq<ConditionState>, plan: Plan)

  /** One rule of the walk: skipped while it cools down, is false or resolves to no plan. */
  function Consider(env: Settings, s: Storage, w: World, user: Address, id: nat, ap: Autopilot, i: nat): Checked<Option<Choice>>
    requires i < |ap.rules|
  {
    var r := ap.rules[i];
    if !Ready(LastFired(s, user, id, i), w.ledger, r.cooldown) then Ok(None)
    else
      var (holds, states) :- EvaluateRule(env, w, user, ap.accountId, r);
      if !holds then Ok(None)
      else
        var plan :- PlanFor(env, w, user, ap.accountId, r.action);
        Ok(match plan case None => None case Some(p) => Some(Choice(i, states, p)))
  }

  /** The first verdict from `i` on that is not "nothing to do", a panic included. */
  function FirstVerdict(verdicts: seq<Checked<Option<Choice>>>, i: nat): Checked<Option<Choice>>
    requires i <= |verdicts|
    decreases |verdicts| - i
  {
    if i == |verdicts| then Ok(None)
    else if verdicts[i] != Ok(None) then verdicts[i]
    else FirstVerdict(verdicts, i + 1)
  }

  function Verdicts(env: Settings, s: Storage, w: World, user: Address, id: nat, ap: Autopilot): seq<Checked<Option<Choice>>> {
    seq(|ap.rules|, i requires 0 <= i < |ap.rules| => Consider(env, s, w, user, id, ap, i))
  }

  /** The walk down the rules: the first one with something to do. */
  function Choose(env: Settings, s: Storage, w: World, user: Address, id: nat, ap: Autopilot): Checked<Option<Choice>> {
    FirstVerdict(Verdicts(env, s, w, user, id, ap), 0)
  }

  function NextActionOf(env: Settings, s: Storage, w: World, user: Address, id: nat): Checked<Option<Planned>> {
    if (user, id) !in s.autopilots then Panic(NoAutopilot)
    else
      var choice :- Choose(env, s, w, user, id, s.autopilots[(user, id)]);
      Ok(if choice.None? then None else Some(PlannedOf(env, choice.value.plan, choice.value.index)))
  }

  /** Closing the agent's session, when a policy is set: the policy refuses unless this router opened it. */
  function CloseSession(env: Settings, w: World, user: Address): Checked<World> {
    if env.policy.None? then Ok(w)
    else
      match AgentPolicy.EndSession(w.sessions, user, env.self)
      case Accepted(sessions) => Ok(w.(sessions := sessions))
      case Rejected(_) => Panic(Unauthorized)
  }

  /** What a tick commits, or the panic that undoes all of it. */
  function TickOf(ext: Outside, env: Settings, s: Storage, w: World, user: Address, id: nat, route: Option<Route>)
    : Checked<(Storage, World, Option<Executed>)>
  {
    if (user, id) !in s.autopilots then Panic(NoAutopilot)
    else
      var ap := s.autopilots[(user, id)];
      var choice :- Choose(env, s, w, user, id, ap);
      match choice
      case None =>
        var closed :- CloseSession(env, w, user);
        Ok((s, closed, None))
      case Some(c) =>
        var (moved, done) :- RunPlan(ext, env, w, user, ap.accountId, c.index, c.plan, route);
        var closed :- CloseSession(env, moved, user);
        Ok((Fire(s, user, id, c.index, w.ledger), closed, Some(done)))
  }

  function CheckFirst(env: Settings, s: Storage, w: World, user: Address, id: nat, ap: Autopilot, n: nat): Checked<seq<RuleState>>
    requires n <= |ap.rules|
  {
    if n == 0 then Ok([])
    else
      var before :- CheckFirst(env, s, w, user, id, ap, n - 1);
      var (holds, states) :- EvaluateRule(env, w, user, ap.accountId, ap.rules[n - 1]);
      var fired := LastFired(s, user, id, n - 1);
      Ok(before + [RuleState(Ready(fired, w.ledger, ap.rules[n - 1].cooldown), holds, states, fired)])
  }

  lemma {:induction false} CheckPanicSpreads(env: Settings, s: Storage, w: World, user: Address, id: nat, ap: Autopilot, n: nat, m: nat)
    requires n <= m <= |ap.rules| && CheckFirst(env, s, w, user, id, ap, n).Panic?
    ensures CheckFirst(env, s, w, user, id, ap, m) == CheckFirst(env, s, w, user, id, ap, n)
  {
    if n < m {
      CheckPanicSpreads(env, s, w, user, id, ap, n, m - 1);
    }
  }

  /** The contract. Entry points take the world they are called in; the user's authorization is already checked. */
  class KoulRouter {
    var autopilots: map<(Address, nat), Autopilot>
    var lastFired: map<(Address, nat, nat), nat>
    var ids: map<Address, seq<nat>>
    var users: seq<Address>
    var settings: Settings

    constructor (env: Settings)
      ensures Valid() && State() == EMPTY && settings == env
    {
      autopilots, lastFired, ids, users, settings := map[], map[], map[], [], env;
    }

    ghost function State(): Storage
      reads this
    {
      Storage(autopilots, lastFired, ids, users)
    }

    ghost predicate Valid()
      reads this
    {
      Exact(State())
    }

    method SweepCooldowns(user: Address, id: nat)
      modifies this`lastFired
      ensures lastFired == ForgetCooldowns(old(lastFired), user, id, MAX_RULES)
    {
      for i := 0 to MAX_RULES
        invariant lastFired == ForgetCooldowns(old(lastFired), user, id, i)
      {
        lastFired := lastFired - {(user, id, i)};
      }
    }

    method SetAutopilot(user: Address, id: nat, ap: Autopilot) returns (r: Checked<()>)
      requires Valid()
      modifies this
      ensures Valid() && settings == old(settings)
      ensures match Set(settings, old(State()), user, id, ap)
              case Ok(after) => r == Ok(()) && State() == after
              case Panic(why) => r == Panic(why) && State() == old(State())
    {
      if !AutopilotOk(ap) { return Panic(BadAutopilot); }
      var why := TokensKnown(settings, ap.rules);
      if why.Some? { return Panic(why.value); }
      ghost var before := State();
      SetKeepsExact(settings, before, user, id, ap);
      if (user, id) in autopilots {
        SweepCooldowns(user, id);
      }
      autopilots := autopilots[(user, id) := ap];
      var mine := if user in ids then ids[user] else [];
      if id !in mine {
        ids := ids[user := mine + [id]];
      }
      if user !in users {
        users := users + [user];
      }
      r := Ok(());
    }

    method ClearAutopilot(user: Address, id: nat) returns (r: Checked<()>)
      requires Valid()
      modifies this
      ensures Valid() && settings == old(settings)
      ensures match Clear(old(State()), user, id)
              case Ok(after) => r == Ok(()) && State() == after
              case Panic(why) => r == Panic(why) && State() == old(State())
    {
      if (user, id) !in autopilots { return Panic(NoAutopilot); }
      ClearKeepsExact(State(), user, id);
      autopilots := autopilots - {(user, id)};
      SweepCooldowns(user, id);
      var mine := VecRemove(if user in ids then ids[user] else [], id);
      if mine == [] {
        ids := ids - {user};
        users := VecRemove(users, user);
      } else {
        ids := ids[user := mine];
      }
      r := Ok(());
    }

    method Check(w: World, user: Address, id: nat) returns (r: Checked<seq<RuleState>>)
      ensures (user, id) !in autopilots ==> r == Panic(NoAutopilot)
      ensures (user, id) in autopilots ==> var ap := autopilots[(user, id)]; r == CheckFirst(settings, State(), w, user, id, ap, |ap.rules|)
    {
      if (user, id) !in autopilots { return Panic(NoAutopilot); }
      var ap := autopilots[(user, id)];
      var out := [];
      for i := 0 to |ap.rules|
        invariant CheckFirst(settings, State(), w, user, id, ap, i) == Ok(out)
      {
        var fired := if (user, id, i) in lastFired then lastFired[(user, id, i)] else 0;
        var read := ReadRule(settings, w, user, ap.accountId, ap.rules[i]);
        if read.Panic? {
          CheckPanicSpreads(settings, State(), w, user, id, ap, i + 1, |ap.rules|);
          return Panic(read.reason);
        }
        out := out + [RuleState(Ready(fired, w.ledger, ap.rules[i].cooldown), read.value.0, read.value.1, fired)];
      }
      r := Ok(out);
    }

    method NextAction(w: World, user: Address, id: nat) returns (r: Checked<Option<Planned>>)
      ensures r == NextActionOf(settings, State(), w, user, id)
    {
      if (user, id) !in autopilots { return Panic(NoAutopilot); }
      var ap := autopilots[(user, id)];
      ghost var verdicts := Verdicts(settings, State(), w, user, id, ap);
      for i := 0 to |ap.rules|
        invariant FirstVerdict(verdicts, 0) == FirstVerdict(verdicts, i)
      {
        assert verdicts[i] == Consider(settings, State(), w, user, id, ap, i);
        var fired := if (user, id, i) in lastFired then lastFired[(user, id, i)] else 0;
        if !Ready(fired, w.ledger, ap.rules[i].cooldown) { continue; }
        var read := ReadRule(settings, w, user, ap.accountId, ap.rules[i]);
        if read.Panic? { return Panic(read.reason); }
        if !read.value.0 { continue; }
        var plan := PlanFor(settings, w, user, ap.accountId, ap.rules[i].action);
        if plan.Panic? { return Panic(plan.reason); }
        if plan.value.Some? {
          return Ok(Some(PlannedOf(settings, plan.value.value, i)));
        }
      }
      r := Ok(None);
    }

    /** A panic after the walk undoes the transaction: nothing stored, nothing moved. */
    method Tick(ext: Outside, w: World, user: Address, id: nat, route: Option<Route>) returns (r: Checked<(World, Option<Executed>)>)
      requires Valid()
      modifies this`lastFired
      ensures Valid()
      ensures match TickOf(ext, settings, old(State()), w, user, id, route)
              case Ok((after, world, done)) => r == Ok((world, done)) && State() == after
              case Panic(why) => r == Panic(why) && State() == old(State())
    {
      if (user, id) !in autopilots { return Panic(NoAutopilot); }
      var ap := autopilots[(user, id)];
      var saved := lastFired;
      ghost var before := State();
      ghost var verdicts := Verdicts(settings, before, w, user, id, ap);
      var now, done: Option<Executed> := w, None;
      var i := 0;
      while i < |ap.rules|
        invariant 0 <= i <= |ap.rules| && lastFired == saved && now == w && done.None?
        invariant FirstVerdict(verdicts, 0) == FirstVerdict(verdicts, i)
      {
        assert verdicts[i] == Consider(settings, before, w, user, id, ap, i);
        var fired := if (user, id, i) in lastFired then lastFired[(user, id, i)] else 0;
        i := i + 1;
        if !Ready(fired, w.ledger, ap.rules[i - 1].cooldown) { continue; }
        var read := ReadRule(settings, w, user, ap.accountId, ap.rules[i - 1]);
        if read.Panic? { return Panic(read.reason); }
        if !read.value.0 { continue; }
        var plan := PlanFor(settings, w, user, ap.accountId, ap.rules[i - 1].action);
        if plan.Panic? { return Panic(plan.reason); }
        if plan.value.None? { continue; }
        assert FirstVerdict(verdicts, 0) == Ok(Some(Choice(i - 1, read.value.1, plan.value.value)));
        var ran, _ := Run(ext, settings, w, user, ap.accountId, i - 1, plan.value.value, route);
        if ran.Panic? { return Panic(ran.reason); }
        lastFired := lastFired[(user, id, i - 1) := w.ledger];
        FireKeepsExact(before, user, id, i - 1, w.ledger);
        now, done := ran.value.0, Some(ran.value.1);
        break;
      }
      var closed := CloseSession(settings, now, user);
      if closed.Panic? {
        lastFired := saved;
        assert State() == before;
        return Panic(closed.reason);
      }
      r := Ok((closed.value, done));
    }
  }
}
