/** Whole histories of the agent policy: who may act when, and how often (koul_agent_policy/src/lib.rs:134-247). */
module PolicyRuns {
  import opened Basics
  import opened AgentPolicy

  datatype Step =
    | Call(ledger: nat, context: Context, signers: nat, ruleId: nat, account: Address)
    | Close(ledger: nat, account: Address, invoker: Address)
    | Grant(ledger: nat, params: Params, ruleId: nat, account: Address)
    | Revoke(ledger: nat, ruleId: nat, account: Address)

  function Attempt(s: Store, step: Step): Outcome<Store> {
    match step
    case Call(now, context, signers, ruleId, account) => Enforce(s, context, signers, ruleId, account, now)
    case Close(_, account, invoker) =>
      var sessions :- EndSession(s.sessions, account, invoker);
      Accepted(s.(sessions := sessions))
    case Grant(_, p, ruleId, account) => Install(s, p, ruleId, account)
    case Revoke(_, ruleId, account) => Accepted(Uninstall(s, ruleId, account))
  }

  /** A rejected step leaves the store as it was. */
  function StateAt(s: Store, steps: seq<Step>, n: nat): Store
    requires n <= |steps|
  {
    if n == 0 then s
    else
      var before := StateAt(s, steps, n - 1);
      match Attempt(before, steps[n - 1])
      case Accepted(after) => after
      case Rejected(_) => before
  }

  predicate Took(s: Store, steps: seq<Step>, i: nat)
    requires i < |steps|
  {
    Attempt(StateAt(s, steps, i), steps[i]).Accepted?
  }

  predicate AcceptedCall(s: Store, steps: seq<Step>, i: nat, key: Key)
    requires i < |steps|
  {
    steps[i].Call? && (steps[i].account, steps[i].ruleId) == key && Took(s, steps, i)
  }

  // ---- What every step keeps ----

  /**
    * Installed parameters passed `install`; a stored window holds at least the call that opened it, and windows and sessions
    * date from ledgers not after `now`.
    */
  ghost predicate WellKept(s: Store, now: nat) {
    && (forall k :: k in s.params ==> s.params[k].maxCallsPerWindow > 0 && s.params[k].windowLedgers > 0 && s.params[k].accountId > 0)
    && (forall k :: k in s.windows ==> s.windows[k].calls > 0 && s.windows[k].start <= now)
    && (forall a :: a in s.sessions ==> s.sessions[a].ledger <= now)
  }

  ghost predicate Chronological(start: nat, steps: seq<Step>) {
    && (forall i :: 0 <= i < |steps| ==> start <= steps[i].ledger)
    && (forall i, j :: 0 <= i <= j < |steps| ==> steps[i].ledger <= steps[j].ledger)
  }

  function LedgerBefore(start: nat, steps: seq<Step>, n: nat): nat
    requires n <= |steps|
  {
    if n == 0 then start else steps[n - 1].ledger
  }

  /** Every reachable store is well kept: a new contract's is, and every step keeps it so. */
  lemma {:induction false} WellKeptAlways(s: Store, start: nat, steps: seq<Step>, n: nat)
    requires WellKept(s, start) && Chronological(start, steps) && n <= |steps|
    ensures WellKept(StateAt(s, steps, n), LedgerBefore(start, steps, n))
  {
    if n > 0 {
      WellKeptAlways(s, start, steps, n - 1);
      var before := StateAt(s, steps, n - 1);
      if Attempt(before, steps[n - 1]).Accepted? {
        StepKeepsWell(before, LedgerBefore(start, steps, n - 1), steps[n - 1]);
      }
    }
  }

  lemma StepKeepsWell(s: Store, start: nat, step: Step)
    requires WellKept(s, start) && start <= step.ledger && Attempt(s, step).Accepted?
    ensures WellKept(Attempt(s, step).value, step.ledger)
  {
  }

  /** Nobody installs or removes the rule's parameters during the history. */
  ghost predicate Undisturbed(steps: seq<Step>, key: Key) {
    forall i :: 0 <= i < |steps| && (steps[i].Grant? || steps[i].Revoke?) ==> (steps[i].account, steps[i].ruleId) != key
  }

  lemma {:induction false} ParamsStay(s: Store, steps: seq<Step>, key: Key, n: nat)
    requires n <= |steps| && Undisturbed(steps, key) && key in s.params
    ensures key in StateAt(s, steps, n).params && StateAt(s, steps, n).params[key] == s.params[key]
  {
    if n > 0 {
      ParamsStay(s, steps, key, n - 1);
    }
  }

  // ---- The rate limit ----

  /** What one step means to one rule's counter: its ledger, and whether it was an accepted call of the rule. */
  datatype Mark = Mark(ledger: nat, accepted: bool)

  function Marks(s: Store, steps: seq<Step>, key: Key): seq<Mark> {
    seq(|steps|, i requires 0 <= i < |steps| => Mark(steps[i].ledger, AcceptedCall(s, steps, i, key)))
  }

  /** The window after the first `n` marks; a mark that was no accepted call leaves it alone. */
  function WindowAt(stored: Option<Window>, marks: seq<Mark>, p: Params, n: nat): Option<Window>
    requires n <= |marks|
  {
    if n == 0 then stored
    else
      var before := WindowAt(stored, marks, p, n - 1);
      if !marks[n - 1].accepted then before
      else
        match NextWindow(before, p, marks[n - 1].ledger)
        case Accepted(w) => Some(w)
        case Rejected(_) => before
  }

  /** Accepted calls among the first `n` marks, in ledgers `lo` up to but not including `hi`. */
  function Calls(marks: seq<Mark>, lo: nat, hi: nat, n: nat): nat
    requires n <= |marks|
  {
    if n == 0 then 0
    else Calls(marks, lo, hi, n - 1) + if marks[n - 1].accepted && lo <= marks[n - 1].ledger < hi then 1 else 0
  }

  /** Marks in ledger order, from a window opened no later, each accepted call having passed the counter. */
  ghost predicate Lawful(stored: Option<Window>, marks: seq<Mark>, p: Params) {
    && p.maxCallsPerWindow > 0 && p.windowLedgers > 0
    && (forall i, j :: 0 <= i < j < |marks| ==> marks[i].ledger <= marks[j].ledger)
    && (stored.Some? ==> stored.value.calls > 0 && forall i :: 0 <= i < |marks| ==> stored.value.start <= marks[i].ledger)
    && (forall i :: 0 <= i < |marks| ==> Passes(stored, marks, p, i))
  }

  predicate Passes(stored: Option<Window>, marks: seq<Mark>, p: Params, i: nat)
    requires i < |marks|
  {
    marks[i].accepted ==> NextWindow(WindowAt(stored, marks, p, i), p, marks[i].ledger).Accepted?
  }

  lemma {:induction false} WindowIsPast(stored: Option<Window>, marks: seq<Mark>, p: Params, n: nat)
    requires Lawful(stored, marks, p) && n <= |marks|
    ensures var w := WindowAt(stored, marks, p, n);
            w.Some? ==> w.value.calls > 0 && forall i :: n <= i < |marks| ==> w.value.start <= marks[i].ledger
  {
    if n > 0 {
      WindowIsPast(stored, marks, p, n - 1);
    }
  }

  function Least(x: int, y: int): int {
    if x < y then x else y
  }

  /** The calls a window can leave to the interval after its first ledger: none when it is that one ledger. */
  function Carry(p: Params): int {
    if p.windowLedgers == 1 then 0 else p.maxCallsPerWindow - 1
  }

  /** The most accepted calls that `windowLedgers` consecutive ledgers can hold. */
  function Limit(p: Params): int {
    p.maxCallsPerWindow + Carry(p)
  }

  /** How many counted calls an interval starting at `lo` can hold while the window in store is `w`. */
  predicate WithinBudget(calls: nat, window: Option<Window>, lo: nat, p: Params) {
    match window
    case None => calls == 0
    case Some(w) =>
      && w.calls > 0
      && (w.start < lo ==> calls <= Least(Carry(p), w.calls - 1))
      && (lo <= w.start < lo + p.windowLedgers ==> calls <= Least(w.calls, p.maxCallsPerWindow) + Carry(p))
      && calls <= Limit(p)
  }

  lemma {:induction false} NoneBefore(marks: seq<Mark>, lo: nat, hi: nat, n: nat)
    requires n <= |marks| && (forall i :: 0 <= i < n ==> marks[i].ledger < lo)
    ensures Calls(marks, lo, hi, n) == 0
  {
    if n > 0 {
      NoneBefore(marks, lo, hi, n - 1);
    }
  }

  lemma {:induction false} BudgetKept(stored: Option<Window>, marks: seq<Mark>, p: Params, lo: nat, n: nat)
    requires Lawful(stored, marks, p) && n <= |marks|
    ensures WithinBudget(Calls(marks, lo, lo + p.windowLedgers, n), WindowAt(stored, marks, p, n), lo, p)
  {
    if n > 0 {
      BudgetKept(stored, marks, p, lo, n - 1);
      assert Passes(stored, marks, p, n - 1);
      WindowIsPast(stored, marks, p, n - 1);
      if marks[n - 1].ledger < lo {
        NoneBefore(marks, lo, lo + p.windowLedgers, n - 1);
      }
    }
  }

  /** Calls that the window in store at the start had counted, as long as it is still the one. */
  function Earlier(stored: Option<Window>, w: Window): nat {
    if stored.Some? && w.start == stored.value.start then stored.value.calls else 0
  }

  /**
    * The window's count is the accepted calls since it opened, it is within the limit unless it was over it from the start,
    * and no call is later than it reaches.
    */
  predicate Counted(stored: Option<Window>, marks: seq<Mark>, window: Option<Window>, p: Params, hi: nat, n: nat)
    requires n <= |marks|
  {
    match window
    case None => stored.None? && Calls(marks, 0, hi, n) == 0
    case Some(w) =>
      && w.calls == Earlier(stored, w) + Calls(marks, w.start, hi, n)
      && (w.calls <= p.maxCallsPerWindow || stored == Some(w))
      && (stored.Some? ==> stored.value.start <= w.start)
      && Calls(marks, w.start + p.windowLedgers, hi, n) == 0
  }

  lemma {:induction false} LaterStartFewerCalls(marks: seq<Mark>, lo: nat, lo': nat, hi: nat, n: nat)
    requires n <= |marks| && lo <= lo'
    ensures Calls(marks, lo', hi, n) <= Calls(marks, lo, hi, n)
  {
    if n > 0 {
      LaterStartFewerCalls(marks, lo, lo', hi, n - 1);
    }
  }

  lemma {:induction false} CountKept(stored: Option<Window>, marks: seq<Mark>, p: Params, hi: nat, n: nat)
    requires Lawful(stored, marks, p) && n <= |marks| && (forall i :: 0 <= i < |marks| ==> marks[i].ledger < hi)
    ensures Counted(stored, marks, WindowAt(stored, marks, p, n), p, hi, n)
  {
    if n > 0 {
      CountKept(stored, marks, p, hi, n - 1);
      assert Passes(stored, marks, p, n - 1);
      WindowIsPast(stored, marks, p, n - 1);
      var w, now := WindowAt(stored, marks, p, n - 1), marks[n - 1].ledger;
      var from := if w.None? then 0 else w.value.start + p.windowLedgers;
      if from <= now {
        LaterStartFewerCalls(marks, from, now, hi, n - 1);
        LaterStartFewerCalls(marks, from, now + p.windowLedgers, hi, n - 1);
      }
    }
  }

  /** Only an accepted call of the rule touches its window, and then as `NextWindow` says. */
  lemma WindowAfter(s: Store, steps: seq<Step>, key: Key, n: nat)
    requires n < |steps| && key in s.params && Undisturbed(steps, key)
    ensures var before, after := WindowOf(StateAt(s, steps, n).windows, key), WindowOf(StateAt(s, steps, n + 1).windows, key);
            if AcceptedCall(s, steps, n, key) then
              after.Some? && NextWindow(before, s.params[key], steps[n].ledger) == Accepted(after.value)
            else after == before
  {
    ParamsStay(s, steps, key, n);
  }

  lemma {:induction false} StoreFollowsMarks(s: Store, steps: seq<Step>, key: Key, n: nat)
    requires n <= |steps| && key in s.params && Undisturbed(steps, key)
    ensures WindowOf(StateAt(s, steps, n).windows, key) == WindowAt(WindowOf(s.windows, key), Marks(s, steps, key), s.params[key], n)
  {
    if n > 0 {
      StoreFollowsMarks(s, steps, key, n - 1);
      WindowAfter(s, steps, key, n - 1);
    }
  }

  lemma MarksAreLawful(s: Store, start: nat, steps: seq<Step>, key: Key)
    requires WellKept(s, start) && key in s.params && Undisturbed(steps, key) && Chronological(start, steps)
    ensures Lawful(WindowOf(s.windows, key), Marks(s, steps, key), s.params[key])
  {
    var marks, stored, p := Marks(s, steps, key), WindowOf(s.windows, key), s.params[key];
    forall i | 0 <= i < |marks|
      ensures Passes(stored, marks, p, i)
    {
      WindowAfter(s, steps, key, i);
      StoreFollowsMarks(s, steps, key, i);
    }
  }

  /**
    * The rate limit over any history: `windowLedgers` consecutive ledgers never hold more than `2 * max - 1` accepted calls
    * of the rule, wherever they start; windows of one ledger never hold more than `max`.
    */
  lemma RateLimit(s: Store, start: nat, steps: seq<Step>, key: Key, lo: nat)
    requires WellKept(s, start) && key in s.params && Undisturbed(steps, key) && Chronological(start, steps)
    ensures var p := s.params[key];
            && Calls(Marks(s, steps, key), lo, lo + p.windowLedgers, |steps|) <= Limit(p)
            && Limit(p) == (if p.windowLedgers == 1 then p.maxCallsPerWindow else 2 * p.maxCallsPerWindow - 1)
  {
    MarksAreLawful(s, start, steps, key);
    BudgetKept(WindowOf(s.windows, key), Marks(s, steps, key), s.params[key], lo, |steps|);
  }

  /**
    * The stored count is exactly the accepted calls since the window opened, with those it had before the history when it is
    * still the same window, and above the limit only if it was so from the start (parameters lowered by an install).
    */
  lemma WindowCounts(s: Store, start: nat, steps: seq<Step>, key: Key, n: nat, hi: nat)
    requires WellKept(s, start) && key in s.params && Undisturbed(steps, key) && Chronological(start, steps)
    requires n <= |steps| && (forall i :: 0 <= i < |steps| ==> steps[i].ledger < hi)
    ensures var stored, now := WindowOf(s.windows, key), WindowOf(StateAt(s, steps, n).windows, key);
            now.Some? ==>
              && now.value.calls == Earlier(stored, now.value) + Calls(Marks(s, steps, key), now.value.start, hi, n)
              && (now.value.calls <= s.params[key].maxCallsPerWindow || now == stored)
  {
    MarksAreLawful(s, start, steps, key);
    CountKept(WindowOf(s.windows, key), Marks(s, steps, key), s.params[key], hi, n);
    StoreFollowsMarks(s, steps, key, n);
  }

  // ---- The limit is reached ----

  /** The first call opens a window, the rest of its limit waits for its last ledger, and a whole window follows at the next. */
  function BurstLedger(p: Params, i: nat): nat
    requires p.windowLedgers > 0
  {
    if i == 0 then 0 else if i < p.maxCallsPerWindow then p.windowLedgers - 1 else p.windowLedgers
  }

  function BurstSteps(p: Params, router: Address, key: Key): seq<Step>
    requires p.windowLedgers > 0
  {
    seq(2 * p.maxCallsPerWindow, i requires 0 <= i => Call(BurstLedger(p, i), Contract(router, TICK, []), 1, key.1, key.0))
  }

  /** A policy in which the parameters have just been installed. */
  function JustInstalled(p: Params, key: Key): Store {
    Store(map[key := p], map[], map[])
  }

  lemma TickPasses(s: Store, p: Params, router: Address, key: Key, now: nat)
    requires key in s.params && s.params[key] == p && (router, TICK) in p.allowedCalls
    requires NextWindow(WindowOf(s.windows, key), p, now).Accepted?
    ensures var r := Enforce(s, Contract(router, TICK, []), 1, key.1, key.0, now);
            && r.Accepted? && r.value.params == s.params
            && WindowOf(r.value.windows, key) == Some(NextWindow(WindowOf(s.windows, key), p, now).value)
  {
  }

  function BurstWindow(p: Params, n: nat): Option<Window> {
    if n == 0 then None
    else if n <= p.maxCallsPerWindow then Some(Window(0, n))
    else Some(Window(p.windowLedgers, n - p.maxCallsPerWindow))
  }

  lemma BurstWindowIsNext(p: Params, n: nat)
    requires p.windowLedgers > 0 && n < 2 * p.maxCallsPerWindow
    ensures BurstWindow(p, n + 1).Some? && NextWindow(BurstWindow(p, n), p, BurstLedger(p, n)) == Accepted(BurstWindow(p, n + 1).value)
  {
  }

  lemma {:induction false} BurstIsAccepted(p: Params, router: Address, key: Key, n: nat)
    requires p.windowLedgers > 0 && (router, TICK) in p.allowedCalls && n <= 2 * p.maxCallsPerWindow
    ensures var s, steps := JustInstalled(p, key), BurstSteps(p, router, key);
            && StateAt(s, steps, n).params == s.params && WindowOf(StateAt(s, steps, n).windows, key) == BurstWindow(p, n)
            && (n < 2 * p.maxCallsPerWindow ==> Took(s, steps, n))
  {
    var s, steps := JustInstalled(p, key), BurstSteps(p, router, key);
    if n > 0 {
      BurstIsAccepted(p, router, key, n - 1);
      BurstWindowIsNext(p, n - 1);
      TickPasses(StateAt(s, steps, n - 1), p, router, key, BurstLedger(p, n - 1));
    }
    if n < 2 * p.maxCallsPerWindow {
      BurstWindowIsNext(p, n);
      TickPasses(StateAt(s, steps, n), p, router, key, BurstLedger(p, n));
    }
  }

  function BurstMarks(p: Params): seq<Mark>
    requires p.windowLedgers > 0
  {
    seq(2 * p.maxCallsPerWindow, i requires 0 <= i => Mark(BurstLedger(p, i), true))
  }

  lemma BurstIsMarked(p: Params, router: Address, key: Key)
    requires p.windowLedgers > 0 && (router, TICK) in p.allowedCalls
    ensures Marks(JustInstalled(p, key), BurstSteps(p, router, key), key) == BurstMarks(p)
  {
    var marks := Marks(JustInstalled(p, key), BurstSteps(p, router, key), key);
    forall i | 0 <= i < 2 * p.maxCallsPerWindow ensures marks[i] == BurstMarks(p)[i] {
      BurstIsAccepted(p, router, key, i);
    }
  }

  lemma {:induction false} BurstCalls(p: Params, n: nat)
    requires p.windowLedgers > 0 && n <= 2 * p.maxCallsPerWindow
    ensures p.windowLedgers > 1 ==> Calls(BurstMarks(p), 1, 1 + p.windowLedgers, n) == if n == 0 then 0 else n - 1
    ensures p.windowLedgers == 1 ==> Calls(BurstMarks(p), 0, 1, n) == Least(n, p.maxCallsPerWindow)
  {
    if n > 0 {
      BurstCalls(p, n - 1);
    }
  }

  /** So the limit cannot be improved: for all parameters that allow a tick, this history of accepted ticks reaches it. */
  lemma RateLimitIsTight(p: Params, router: Address, ruleId: nat, account: Address)
    requires Install(Store(map[], map[], map[]), p, ruleId, account).Accepted? && (router, TICK) in p.allowedCalls
    ensures var key, lo := (account, ruleId), if p.windowLedgers == 1 then 0 else 1;
            var s, steps := JustInstalled(p, key), BurstSteps(p, router, key);
            && Install(Store(map[], map[], map[]), p, ruleId, account) == Accepted(s)
            && WellKept(s, 0) && Undisturbed(steps, key) && Chronological(0, steps)
            && Calls(Marks(s, steps, key), lo, lo + p.windowLedgers, |steps|) == Limit(p)
  {
    BurstIsMarked(p, router, (account, ruleId));
    BurstCalls(p, 2 * p.maxCallsPerWindow);
  }

  // ---- Sessions ----

  /** Step `i` was an accepted tick for the account. */
  predicate Ticked(s: Store, steps: seq<Step>, account: Address, i: nat)
    requires i < |steps|
  {
    steps[i].Call? && steps[i].account == account && steps[i].context.Contract? && steps[i].context.fnName == TICK && Took(s, steps, i)
  }

  predicate ClosedAt(s: Store, steps: seq<Step>, account: Address, i: nat)
    requires i < |steps|
  {
    steps[i].Close? && steps[i].account == account && Took(s, steps, i)
  }

  /** Step `i` ticked for the account in `ledger` through `router`, and nothing closed the session before step `n`. */
  ghost predicate OpenSince(s: Store, steps: seq<Step>, account: Address, session: Session, i: nat, n: nat)
    requires n <= |steps|
  {
    && i < n
    && Ticked(s, steps, account, i)
    && steps[i].ledger == session.ledger
    && steps[i].context.contract == session.router
    && (forall j :: i < j < n ==> !ClosedAt(s, steps, account, j))
  }

  /** A session in store after a step was opened by it, or was there before and not closed. */
  lemma SessionStep(s: Store, steps: seq<Step>, account: Address, n: nat)
    requires n < |steps| && account in StateAt(s, steps, n + 1).sessions
    ensures var session := StateAt(s, steps, n + 1).sessions[account];
            if Ticked(s, steps, account, n) then session == Session(steps[n].context.contract, steps[n].ledger)
            else
              && account in StateAt(s, steps, n).sessions && StateAt(s, steps, n).sessions[account] == session
              && !ClosedAt(s, steps, account, n)
  {
  }

  lemma {:induction false} SessionHasOrigin(s: Store, steps: seq<Step>, account: Address, n: nat)
    requires n <= |steps| && account !in s.sessions
    ensures var now := StateAt(s, steps, n);
            account in now.sessions ==> exists i :: OpenSince(s, steps, account, now.sessions[account], i, n)
  {
    if n > 0 && account in StateAt(s, steps, n).sessions {
      var session := StateAt(s, steps, n).sessions[account];
      SessionStep(s, steps, account, n - 1);
      if Ticked(s, steps, account, n - 1) {
        assert OpenSince(s, steps, account, session, n - 1, n);
      } else {
        SessionHasOrigin(s, steps, account, n - 1);
        var i :| OpenSince(s, steps, account, session, i, n - 1);
        assert OpenSince(s, steps, account, session, i, n);
      }
    }
  }

  /**
    * The key acts only inside a tick: in every history an accepted call other than `tick` follows an accepted tick for the
    * same account in the same ledger, with no close of the session in between.
    */
  lemma ActsOnlyInsideATick(s: Store, steps: seq<Step>, q: nat)
    requires q < |steps| && steps[q].Call? && Took(s, steps, q)
    requires steps[q].account !in s.sessions
    requires steps[q].context.Contract? && steps[q].context.fnName != TICK
    ensures exists i, router :: OpenSince(s, steps, steps[q].account, Session(router, steps[q].ledger), i, q)
  {
    var account := steps[q].account;
    SessionHasOrigin(s, steps, account, q);
    var session := StateAt(s, steps, q).sessions[account];
    var i :| OpenSince(s, steps, account, session, i, q);
    assert OpenSince(s, steps, account, Session(session.router, steps[q].ledger), i, q);
  }

  /**
    * Once an account has no open session, whatever is called, closed, installed or removed after, none of its calls but a
    * tick is accepted until a tick is.
    */
  lemma QuietUntilTheNextTick(s: Store, steps: seq<Step>, account: Address, q: nat)
    requires account !in s.sessions && q < |steps|
    requires steps[q].Call? && steps[q].account == account && !Ticked(s, steps, account, q) && Took(s, steps, q)
    ensures exists i :: 0 <= i < q && Ticked(s, steps, account, i) && steps[i].ledger == steps[q].ledger
  {
    ActsOnlyInsideATick(s, steps, q);
    var i, router :| OpenSince(s, steps, account, Session(router, steps[q].ledger), i, q);
    assert Ticked(s, steps, account, i);
  }

  /** What an accepted call must have looked like: allowlisted, and moving money only between the wallet and its own position. */
  lemma AcceptedCallIsConfined(s: Store, context: Context, signers: nat, ruleId: nat, account: Address, now: nat)
    requires Enforce(s, context, signers, ruleId, account, now).Accepted?
    ensures (account, ruleId) in s.params && context.Contract?
    ensures var p, a := s.params[(account, ruleId)], context.args;
            && (context.contract, context.fnName) in p.allowedCalls
            && (context.fnName == TRANSFER ==> |a| == 3 && a[1].AddressVal? && a[1].address in p.allowedTransferRecipients)
            && (context.fnName in [WITHDRAW, SUPPLY, REPAY] ==> |a| >= 3 && a[1] == U64Val(p.accountId))
            && (context.fnName == WITHDRAW ==> |a| == 4 && (a[3] == Void || a[3] == AddressVal(account)))
            && (context.fnName == EXECUTE_STRATEGY ==> |a| == 3 && a[0] == AddressVal(account))
  {
    var p := s.params[(account, ruleId)];
    assert NextSessions(s.sessions, account, context.contract, context.fnName, now).Accepted?;
    assert CheckArgs(p, context.fnName, context.args, account).Accepted?;
  }

  // ---- Exactly what is accepted ----

  /** The arguments a call must have: as many as the callee takes, the autopilot's account, and nobody else to pay. */
  predicate ArgsFit(p: Params, fnName: Symbol, a: seq<Val>, account: Address) {
    && (fnName == "transfer" ==> |a| == 3 && a[1].AddressVal? && a[1].address in p.allowedTransferRecipients)
    && (fnName == "withdraw" ==> |a| == 4 && a[1] == U64Val(p.accountId) && (a[3] == Void || a[3] == AddressVal(account)))
    && (fnName == "supply" ==> |a| == 4 && a[1] == U64Val(p.accountId))
    && (fnName == "repay" ==> |a| == 3 && a[1] == U64Val(p.accountId))
    && (fnName == "execute_strategy" ==> |a| == 3 && a[0] == AddressVal(account))
  }

  /** The window a call at `now` falls into: the stored one while it lasts, and otherwise a new one. */
  function CallsSoFar(windows: map<Key, Window>, key: Key, p: Params, now: nat): Window {
    if key in windows && now < windows[key].start + p.windowLedgers then windows[key] else Window(now, 0)
  }

  /**
    * A call is accepted exactly with a signer, for an installed rule, on the list, as a tick or inside the session of this
    * ledger, with fitting arguments and a call left in its window. It then counts in that window; a tick opens a session, and
    * nothing else changes.
    */
  lemma EnforceExactly(s: Store, context: Context, signers: nat, ruleId: nat, account: Address, now: nat)
    requires WellKept(s, now)
    ensures var key, r := (account, ruleId), Enforce(s, context, signers, ruleId, account, now);
            && (r.Accepted?
                <==> && signers > 0 && key in s.params && context.Contract?
                     && var p := s.params[key];
                     && (context.contract, context.fnName) in p.allowedCalls
                     && (context.fnName == "tick" || (account in s.sessions && s.sessions[account].ledger == now))
                     && ArgsFit(p, context.fnName, context.args, account)
                     && CallsSoFar(s.windows, key, p, now).calls < p.maxCallsPerWindow)
            && (r.Accepted? ==>
                  var w := CallsSoFar(s.windows, key, s.params[key], now);
                  r.value == Store(s.params, s.windows[key := Window(w.start, w.calls + 1)],
                                   if context.fnName == "tick" then s.sessions[account := Session(context.contract, now)] else s.sessions))
  {
    if signers > 0 && (account, ruleId) in s.params && context.Contract? {
      ArgsAreChecked(s.params[(account, ruleId)], context.fnName, context.args, account);
      WindowIsChecked(s, (account, ruleId), s.params[(account, ruleId)], now);
    }
  }

  lemma ArgsAreChecked(p: Params, fnName: Symbol, a: seq<Val>, account: Address)
    ensures CheckArgs(p, fnName, a, account).Accepted? <==> ArgsFit(p, fnName, a, account)
  {
  }

  lemma WindowIsChecked(s: Store, key: Key, p: Params, now: nat)
    requires WellKept(s, now) && key in s.params && p == s.params[key]
    ensures var w, r := CallsSoFar(s.windows, key, p, now), NextWindow(WindowOf(s.windows, key), p, now);
            && (r.Accepted? <==> w.calls < p.maxCallsPerWindow) && (r.Accepted? ==> r.value == Window(w.start, w.calls + 1))
  {
  }

  /** Parameters are installed exactly when they name an account, at least one call, a limit and a window; nothing else changes. */
  lemma InstallExactly(s: Store, p: Params, ruleId: nat, account: Address)
    ensures Install(s, p, ruleId, account).Accepted? <==> p.accountId > 0 && |p.allowedCalls| > 0 && p.maxCallsPerWindow > 0 && p.windowLedgers > 0
    ensures Install(s, p, ruleId, account).Accepted? ==>
              var t := Install(s, p, ruleId, account).value;
              && t.windows == s.windows && t.sessions == s.sessions
              && t.params.Keys == s.params.Keys + {(account, ruleId)} && t.params[(account, ruleId)] == p
              && forall k :: k in s.params && k != (account, ruleId) ==> t.params[k] == s.params[k]
  {
  }

  /** Removing a rule takes its parameters and its window, and nothing of any other rule. */
  lemma UninstallExactly(s: Store, ruleId: nat, account: Address)
    ensures var t := Uninstall(s, ruleId, account);
            && t.sessions == s.sessions
            && t.params.Keys == s.params.Keys - {(account, ruleId)} && (forall k :: k in t.params ==> t.params[k] == s.params[k])
            && t.windows.Keys == s.windows.Keys - {(account, ruleId)} && (forall k :: k in t.windows ==> t.windows[k] == s.windows[k])
  {
  }

  // ---- Who closes a session ----

  /** A close is accepted exactly from the opener, or with nothing open, and takes just that session away. */
  lemma CloseExactly(sessions: map<Address, Session>, account: Address, invoker: Address)
    ensures EndSession(sessions, account, invoker).Accepted? <==> (account in sessions ==> sessions[account].router == invoker)
    ensures EndSession(sessions, account, invoker).Accepted? ==>
              var after := EndSession(sessions, account, invoker).value;
              after.Keys == sessions.Keys - {account} && forall a :: a in after ==> after[a] == sessions[a]
  {
  }

  /** The opener tries to close the account's session at step `i`. */
  predicate OpenerCloses(steps: seq<Step>, account: Address, router: Address, i: nat)
    requires i < |steps|
  {
    steps[i].Close? && steps[i].account == account && steps[i].invoker == router
  }

  /** Nothing but its opener's close, or the account's next accepted tick, ends a session: whoever else tries is refused. */
  lemma {:induction false} SessionStays(s: Store, steps: seq<Step>, account: Address, n: nat)
    requires n <= |steps| && account in s.sessions
    requires forall i :: 0 <= i < n ==> !Ticked(s, steps, account, i) && !OpenerCloses(steps, account, s.sessions[account].router, i)
    ensures account in StateAt(s, steps, n).sessions && StateAt(s, steps, n).sessions[account] == s.sessions[account]
    ensures forall i :: 0 <= i < n && steps[i].Close? && steps[i].account == account ==> !Took(s, steps, i)
  {
    if n > 0 {
      SessionStays(s, steps, account, n - 1);
      assert !Ticked(s, steps, account, n - 1) && !OpenerCloses(steps, account, s.sessions[account].router, n - 1);
    }
  }

  /** Once its opener closes it, it is gone. */
  lemma OpenerEnds(s: Store, steps: seq<Step>, account: Address, n: nat)
    requires n < |steps| && account in StateAt(s, steps, n).sessions
    requires OpenerCloses(steps, account, StateAt(s, steps, n).sessions[account].router, n)
    ensures account !in StateAt(s, steps, n + 1).sessions
  {
    CloseExactly(StateAt(s, steps, n).sessions, account, steps[n].invoker);
  }
}
