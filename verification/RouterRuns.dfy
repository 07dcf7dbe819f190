/** Whole histories of the router: registries and cooldowns over any run of set, clear and tick (koul_router/src/lib.rs:895-1040). */
module RouterRuns {
  import opened Basics
  import opened RouterMath
  import opened RouterTypes
  import opened Reads
  import opened Engine
  import opened Registry
  import opened Router
  import opened Walks

  /** One transaction, with the settings, outside contracts and world it runs in; all of them may change between two. */
  datatype Op =
    | SetOp(env: Settings, user: Address, id: nat, autopilot: Autopilot)
    | ClearOp(user: Address, id: nat)
    | TickOp(ext: Outside, env: Settings, world: World, user: Address, id: nat, route: Option<Route>)

  /** A transaction that panics changes nothing. */
  ghost function After(s: Storage, op: Op): Storage {
    match op
    case SetOp(env, user, id, ap) =>
      (match Set(env, s, user, id, ap) case Ok(t) => t case Panic(_) => s)
    case ClearOp(user, id) =>
      (match Clear(s, user, id) case Ok(t) => t case Panic(_) => s)
    case TickOp(ext, env, w, user, id, route) =>
      (match TickOf(ext, env, s, w, user, id, route) case Ok(t) => t.0 case Panic(_) => s)
  }

  ghost function StateAt(s: Storage, ops: seq<Op>, n: nat): Storage
    requires n <= |ops|
  {
    if n == 0 then s else After(StateAt(s, ops, n - 1), ops[n - 1])
  }

  /** Step `n` was a committed tick of the autopilot that fired rule `index`. */
  ghost predicate Fires(s: Storage, ops: seq<Op>, n: nat, user: Address, id: nat, index: nat)
    requires n < |ops|
  {
    ops[n].TickOp? && ops[n].user == user && ops[n].id == id &&
    var t := TickOf(ops[n].ext, ops[n].env, StateAt(s, ops, n), ops[n].world, user, id, ops[n].route);
    t.Ok? && t.value.2.Some? && t.value.2.value.index == index
  }

  /** Step `n` replaces or clears the autopilot. */
  ghost predicate Replaces(ops: seq<Op>, n: nat, user: Address, id: nat)
    requires n < |ops|
  {
    !ops[n].TickOp? && ops[n].user == user && ops[n].id == id
  }

  ghost predicate LedgersPass(ops: seq<Op>) {
    && (forall i :: 0 <= i < |ops| && ops[i].TickOp? ==> ops[i].world.ledger >= 1)
    && (forall i, j :: 0 <= i < j < |ops| && ops[i].TickOp? && ops[j].TickOp? ==> ops[i].world.ledger <= ops[j].world.ledger)
  }

  lemma TickAfter(s: Storage, op: Op)
    requires op.TickOp?
    ensures After(s, op) == s
            || exists index :: Fired(s, op, index) && After(s, op) == Fire(s, op.user, op.id, index, op.world.ledger)
  {
    var t := TickOf(op.ext, op.env, s, op.world, op.user, op.id, op.route);
    if t.Ok? && t.value.2.Some? {
      var ap := s.autopilots[(op.user, op.id)];
      var c := Choose(op.env, s, op.world, op.user, op.id, ap).value.value;
      RunReports(op.ext, op.env, op.world, op.user, ap.accountId, c.index, c.plan, op.route);
      ChooseIsFirst(op.env, s, op.world, op.user, op.id, ap, c);
      assert Fired(s, op, c.index);
    }
  }

  /** The tick committed having fired rule `index`, which was off cooldown. */
  ghost predicate Fired(s: Storage, op: Op, index: nat)
    requires op.TickOp?
  {
    var t := TickOf(op.ext, op.env, s, op.world, op.user, op.id, op.route);
    && t.Ok? && t.value.2.Some? && t.value.2.value.index == index
    && (op.user, op.id) in s.autopilots && index < |s.autopilots[(op.user, op.id)].rules|
    && Ready(LastFired(s, op.user, op.id, index), op.world.ledger, s.autopilots[(op.user, op.id)].rules[index].cooldown)
  }

  /** The registries and the cooldown table stay exact through every history. */
  lemma {:induction false} ExactAlways(s: Storage, ops: seq<Op>, n: nat)
    requires Exact(s) && n <= |ops|
    ensures Exact(StateAt(s, ops, n))
  {
    if n > 0 {
      ExactAlways(s, ops, n - 1);
      var before, op := StateAt(s, ops, n - 1), ops[n - 1];
      match op
      case SetOp(env, user, id, ap) => if Set(env, before, user, id, ap).Ok? { SetKeepsExact(env, before, user, id, ap); }
      case ClearOp(user, id) => if Clear(before, user, id).Ok? { ClearKeepsExact(before, user, id); }
      case TickOp(_, _, w, user, id, _) =>
        TickAfter(before, op);
        if After(before, op) != before {
          var index :| Fired(before, op, index) && After(before, op) == Fire(before, user, id, index, w.ledger);
          FireKeepsExact(before, user, id, index, w.ledger);
        }
    }
  }

  /** Another transaction leaves this autopilot, and its cooldowns from earlier fires, in place or later. */
  lemma StepKeepsCooldown(s: Storage, op: Op, user: Address, id: nat, index: nat, since: nat)
    requires Exact(s) && (op.TickOp? ==> op.world.ledger >= since)
    requires !op.TickOp? ==> op.user != user || op.id != id
    requires (user, id) in s.autopilots && LastFired(s, user, id, index) >= since
    ensures var t := After(s, op);
            (user, id) in t.autopilots && t.autopilots[(user, id)] == s.autopilots[(user, id)] && LastFired(t, user, id, index) >= since
  {
    match op
    case SetOp(_, other, i, _) => CooldownsForgotten(s, other, i);
    case ClearOp(other, i) => CooldownsForgotten(s, other, i);
    case TickOp(_, _, _, _, _, _) => TickAfter(s, op);
  }

  lemma FireIsRecorded(s: Storage, ops: seq<Op>, p: nat, user: Address, id: nat, index: nat)
    requires p < |ops| && Fires(s, ops, p, user, id, index)
    ensures var before, t := StateAt(s, ops, p), StateAt(s, ops, p + 1);
            && (user, id) in before.autopilots && t.autopilots == before.autopilots
            && LastFired(t, user, id, index) >= ops[p].world.ledger
  {
    TickAfter(StateAt(s, ops, p), ops[p]);
  }

  lemma CooldownCarries(s: Storage, ops: seq<Op>, n: nat, user: Address, id: nat, index: nat, since: nat)
    requires Exact(s) && n < |ops| && !Replaces(ops, n, user, id) && (ops[n].TickOp? ==> ops[n].world.ledger >= since)
    requires (user, id) in StateAt(s, ops, n).autopilots && LastFired(StateAt(s, ops, n), user, id, index) >= since
    ensures var t := StateAt(s, ops, n + 1);
            && (user, id) in t.autopilots && t.autopilots[(user, id)] == StateAt(s, ops, n).autopilots[(user, id)]
            && LastFired(t, user, id, index) >= since
  {
    ExactAlways(s, ops, n);
    StepKeepsCooldown(StateAt(s, ops, n), ops[n], user, id, index, since);
  }

  lemma {:induction false} CooldownStands(s: Storage, ops: seq<Op>, p: nat, n: nat, user: Address, id: nat, index: nat)
    requires Exact(s) && LedgersPass(ops) && p < n <= |ops| && Fires(s, ops, p, user, id, index)
    requires forall j :: p < j < n ==> !Replaces(ops, j, user, id)
    ensures var t := StateAt(s, ops, n);
            && (user, id) in StateAt(s, ops, p).autopilots && (user, id) in t.autopilots
            && t.autopilots[(user, id)] == StateAt(s, ops, p).autopilots[(user, id)]
            && LastFired(t, user, id, index) >= ops[p].world.ledger
  {
    if n == p + 1 {
      FireIsRecorded(s, ops, p, user, id, index);
    } else {
      CooldownStands(s, ops, p, n - 1, user, id, index);
      assert !Replaces(ops, n - 1, user, id);
      CooldownCarries(s, ops, n - 1, user, id, index, ops[p].world.ledger);
    }
  }

  /**
    * Cooldowns over every history at ledgers from 1: two fires of one rule, with no set or clear of its autopilot between,
    * are at least its cooldown apart.
    */
  lemma CooldownIsKept(s: Storage, ops: seq<Op>, p: nat, q: nat, user: Address, id: nat, index: nat)
    requires Exact(s) && LedgersPass(ops) && p < q < |ops|
    requires Fires(s, ops, p, user, id, index) && Fires(s, ops, q, user, id, index)
    requires forall j :: p < j < q ==> !Replaces(ops, j, user, id)
    ensures (user, id) in StateAt(s, ops, q).autopilots && index < |StateAt(s, ops, q).autopilots[(user, id)].rules|
    ensures ops[q].world.ledger >= ops[p].world.ledger + StateAt(s, ops, q).autopilots[(user, id)].rules[index].cooldown
  {
    CooldownStands(s, ops, p, q, user, id, index);
    ExactAlways(s, ops, q);
    TickAfter(StateAt(s, ops, q), ops[q]);
    FiresAreReady(s, ops, q, user, id, index);
    var ap := StateAt(s, ops, q).autopilots[(user, id)];
    assert ap.rules[index] in ap.rules;
  }

  /** A rule that fired was stored, in range and off cooldown; the tick stored its ledger and changed nothing else. */
  lemma FiresAreReady(s: Storage, ops: seq<Op>, n: nat, user: Address, id: nat, index: nat)
    requires n < |ops| && Fires(s, ops, n, user, id, index)
    ensures Fired(StateAt(s, ops, n), ops[n], index)
    ensures StateAt(s, ops, n + 1) == Fire(StateAt(s, ops, n), user, id, index, ops[n].world.ledger)
  {
    var before, op := StateAt(s, ops, n), ops[n];
    var ap := before.autopilots[(user, id)];
    var c := Choose(op.env, before, op.world, user, id, ap).value.value;
    RunReports(op.ext, op.env, op.world, user, ap.accountId, c.index, c.plan, op.route);
    ChooseIsFirst(op.env, before, op.world, user, id, ap, c);
  }

  // ---- What is stored ----

  /** Step `n` was a save of `ap` under this key that committed. */
  ghost predicate Saves(s: Storage, ops: seq<Op>, n: nat, user: Address, id: nat, ap: Autopilot)
    requires n < |ops|
  {
    ops[n].SetOp? && ops[n].user == user && ops[n].id == id && ops[n].autopilot == ap && Set(ops[n].env, StateAt(s, ops, n), user, id, ap).Ok?
  }

  /** Step `n` committed a save or a clear of this key. */
  ghost predicate Writes(s: Storage, ops: seq<Op>, n: nat, user: Address, id: nat)
    requires n < |ops|
  {
    Replaces(ops, n, user, id) &&
    match ops[n]
    case SetOp(env, _, _, ap) => Set(env, StateAt(s, ops, n), user, id, ap).Ok?
    case ClearOp(_, _) => (user, id) in StateAt(s, ops, n).autopilots
    case TickOp(_, _, _, _, _, _) => false
  }

  /** `ap` was saved at `m`, and no committed save or clear of its key came between then and step `n`. */
  ghost predicate LastSavedAt(s: Storage, ops: seq<Op>, m: nat, n: nat, user: Address, id: nat, ap: Autopilot)
    requires n <= |ops|
  {
    m < n && Saves(s, ops, m, user, id, ap) && forall j :: m < j < n ==> !Writes(s, ops, j, user, id)
  }

  /** There from the start, and not written since. */
  ghost predicate NeverWritten(s: Storage, ops: seq<Op>, n: nat, user: Address, id: nat)
    requires n <= |ops|
  {
    forall j :: 0 <= j < n ==> !Writes(s, ops, j, user, id)
  }

  lemma OtherStepsKeepStored(s: Storage, ops: seq<Op>, n: nat, user: Address, id: nat)
    requires Exact(s) && 0 < n <= |ops| && !Writes(s, ops, n - 1, user, id)
    ensures var before, after := StateAt(s, ops, n - 1).autopilots, StateAt(s, ops, n).autopilots;
            ((user, id) in after <==> (user, id) in before) && ((user, id) in before ==> after[(user, id)] == before[(user, id)])
  {
    var t, op := StateAt(s, ops, n - 1), ops[n - 1];
    ExactAlways(s, ops, n - 1);
    match op
    case SetOp(env, other, i, ap) => SaveMeans(env, t, other, i, ap);
    case ClearOp(other, i) => ClearMeans(t, other, i);
    case TickOp(_, _, _, _, _, _) => TickAfter(t, op);
  }

  lemma WriteIsStored(s: Storage, ops: seq<Op>, n: nat, user: Address, id: nat)
    requires Exact(s) && 0 < n <= |ops| && Writes(s, ops, n - 1, user, id)
    ensures var after := StateAt(s, ops, n).autopilots;
            if ops[n - 1].SetOp? then (user, id) in after && after[(user, id)] == ops[n - 1].autopilot else (user, id) !in after
  {
    var t := StateAt(s, ops, n - 1);
    ExactAlways(s, ops, n - 1);
    match ops[n - 1]
    case SetOp(env, _, _, ap) => SaveMeans(env, t, user, id, ap);
    case ClearOp(_, _) => ClearMeans(t, user, id);
  }

  ghost predicate SavedBefore(s: Storage, ops: seq<Op>, n: nat, user: Address, id: nat, ap: Autopilot)
    requires n <= |ops|
  {
    exists m :: 0 <= m < n && LastSavedAt(s, ops, m, n, user, id, ap)
  }

  lemma NothingNew(s: Storage, ops: seq<Op>, n: nat, user: Address, id: nat, ap: Autopilot)
    requires 0 < n <= |ops| && !Writes(s, ops, n - 1, user, id)
    ensures SavedBefore(s, ops, n, user, id, ap) <==> SavedBefore(s, ops, n - 1, user, id, ap)
    ensures NeverWritten(s, ops, n, user, id) <==> NeverWritten(s, ops, n - 1, user, id)
  {
    var before := n - 1;
    if m :| 0 <= m < before && LastSavedAt(s, ops, m, before, user, id, ap) {
      assert LastSavedAt(s, ops, m, n, user, id, ap);
    }
    if m :| 0 <= m < n && LastSavedAt(s, ops, m, n, user, id, ap) {
      assert m != before;
      assert LastSavedAt(s, ops, m, before, user, id, ap);
    }
  }

  lemma WrittenNow(s: Storage, ops: seq<Op>, n: nat, user: Address, id: nat, ap: Autopilot)
    requires 0 < n <= |ops| && Writes(s, ops, n - 1, user, id)
    ensures SavedBefore(s, ops, n, user, id, ap) <==> ops[n - 1].SetOp? && ops[n - 1].autopilot == ap
    ensures !NeverWritten(s, ops, n, user, id)
  {
    var now := n - 1;
    if ops[now].SetOp? && ops[now].autopilot == ap {
      assert LastSavedAt(s, ops, now, n, user, id, ap);
    }
    if m :| 0 <= m < n && LastSavedAt(s, ops, m, n, user, id, ap) {
      assert m == now;
    }
  }

  predicate Stores(s: Storage, user: Address, id: nat, ap: Autopilot) {
    (user, id) in s.autopilots && s.autopilots[(user, id)] == ap
  }

  lemma StoredSinceNow(s: Storage, ops: seq<Op>, n: nat, user: Address, id: nat, ap: Autopilot)
    requires Exact(s) && 0 < n <= |ops| && Writes(s, ops, n - 1, user, id)
    ensures Stores(StateAt(s, ops, n), user, id, ap) <==> SavedBefore(s, ops, n, user, id, ap)
    ensures !NeverWritten(s, ops, n, user, id)
  {
    WriteIsStored(s, ops, n, user, id);
    WrittenNow(s, ops, n, user, id, ap);
  }

  lemma StoredAsBefore(s: Storage, ops: seq<Op>, n: nat, user: Address, id: nat, ap: Autopilot)
    requires Exact(s) && 0 < n <= |ops| && !Writes(s, ops, n - 1, user, id)
    ensures Stores(StateAt(s, ops, n), user, id, ap) <==> Stores(StateAt(s, ops, n - 1), user, id, ap)
    ensures SavedBefore(s, ops, n, user, id, ap) <==> SavedBefore(s, ops, n - 1, user, id, ap)
    ensures NeverWritten(s, ops, n, user, id) <==> NeverWritten(s, ops, n - 1, user, id)
  {
    OtherStepsKeepStored(s, ops, n, user, id);
    NothingNew(s, ops, n, user, id, ap);
  }

  /**
    * After any history, what is stored under a key is the autopilot of the last committed save of it with no committed clear
    * since, or what was there at the start if nothing was written.
    */
  lemma {:induction false} StoredIsLastSaved(s: Storage, ops: seq<Op>, n: nat, user: Address, id: nat, ap: Autopilot)
    requires Exact(s) && n <= |ops|
    ensures Stores(StateAt(s, ops, n), user, id, ap)
       <==> SavedBefore(s, ops, n, user, id, ap) || (NeverWritten(s, ops, n, user, id) && Stores(s, user, id, ap))
    decreases n
  {
    if n > 0 {
      StoredIsLastSaved(s, ops, n - 1, user, id, ap);
      if Writes(s, ops, n - 1, user, id) {
        StoredSinceNow(s, ops, n, user, id, ap);
      } else {
        StoredAsBefore(s, ops, n, user, id, ap);
      }
    }
  }

  // ---- Readiness ----

  /**
    * A rule that fired and was not replaced since is off cooldown from its cooldown on, and not a ledger sooner unless it has
    * fired again.
    */
  lemma ReadyFromTheCooldownOn(s: Storage, ops: seq<Op>, p: nat, n: nat, user: Address, id: nat, index: nat, now: nat)
    requires Exact(s) && LedgersPass(ops) && p < n <= |ops| && Fires(s, ops, p, user, id, index)
    requires forall j :: p < j < n ==> !Replaces(ops, j, user, id)
    requires forall j :: p < j < n ==> !Fires(s, ops, j, user, id, index)
    ensures (user, id) in StateAt(s, ops, n).autopilots && index < |StateAt(s, ops, n).autopilots[(user, id)].rules|
    ensures LastFired(StateAt(s, ops, n), user, id, index) == ops[p].world.ledger
    ensures Ready(LastFired(StateAt(s, ops, n), user, id, index), now, StateAt(s, ops, n).autopilots[(user, id)].rules[index].cooldown)
       <==> now >= ops[p].world.ledger + StateAt(s, ops, n).autopilots[(user, id)].rules[index].cooldown
  {
    CooldownStands(s, ops, p, n, user, id, index);
    FireIsStored(s, ops, p, user, id, index);
    LastFiredStays(s, ops, p, n, user, id, index, ops[p].world.ledger);
    FiresAreReady(s, ops, p, user, id, index);
    ExactAlways(s, ops, n);
    var ap := StateAt(s, ops, n).autopilots[(user, id)];
    assert ap.rules[index] in ap.rules;
  }

  lemma FireIsStored(s: Storage, ops: seq<Op>, p: nat, user: Address, id: nat, index: nat)
    requires p < |ops| && Fires(s, ops, p, user, id, index)
    ensures LastFired(StateAt(s, ops, p + 1), user, id, index) == ops[p].world.ledger
  {
    FiresAreReady(s, ops, p, user, id, index);
  }

  /** Neither replaced nor fired between two steps. */
  ghost predicate Untouched(s: Storage, ops: seq<Op>, p: nat, n: nat, user: Address, id: nat, index: nat)
    requires n <= |ops|
  {
    forall j :: p < j < n ==> !Replaces(ops, j, user, id) && !Fires(s, ops, j, user, id, index)
  }

  lemma {:induction false} LastFiredStays(s: Storage, ops: seq<Op>, p: nat, n: nat, user: Address, id: nat, index: nat, since: nat)
    requires Exact(s) && p < n <= |ops| && Untouched(s, ops, p, n, user, id, index)
    requires LastFired(StateAt(s, ops, p + 1), user, id, index) == since
    ensures LastFired(StateAt(s, ops, n), user, id, index) == since
    decreases n
  {
    if n > p + 1 {
      LastFiredStays(s, ops, p, n - 1, user, id, index, since);
      OtherStepsKeepLastFired(s, ops, n, user, id, index);
    }
  }

  lemma OtherStepsKeepLastFired(s: Storage, ops: seq<Op>, n: nat, user: Address, id: nat, index: nat)
    requires Exact(s) && 0 < n <= |ops| && !Replaces(ops, n - 1, user, id) && !Fires(s, ops, n - 1, user, id, index)
    ensures LastFired(StateAt(s, ops, n), user, id, index) == LastFired(StateAt(s, ops, n - 1), user, id, index)
  {
    var t, op := StateAt(s, ops, n - 1), ops[n - 1];
    ExactAlways(s, ops, n - 1);
    match op
    case SetOp(env, other, i, ap) => SaveMeans(env, t, other, i, ap);
    case ClearOp(other, i) => ClearMeans(t, other, i);
    case TickOp(_, _, _, _, _, _) => TickAfter(t, op);
  }

  /** A rule that has not fired since it was saved is ready at once. */
  lemma ReadyAtOnce(s: Storage, op: Op, index: nat, now: nat, cooldown: nat)
    requires Exact(s) && op.SetOp? && Set(op.env, s, op.user, op.id, op.autopilot).Ok?
    ensures Ready(LastFired(After(s, op), op.user, op.id, index), now, cooldown)
  {
    SaveMeans(op.env, s, op.user, op.id, op.autopilot);
  }

  /** Storing or clearing an autopilot wipes the cooldowns of every one of its rules. */
  lemma ReplacingResets(s: Storage, op: Op, index: nat)
    requires Exact(s) && !op.TickOp? && After(s, op) != s
    ensures LastFired(After(s, op), op.user, op.id, index) == 0
  {
    match op
    case SetOp(env, user, id, ap) => SetKeepsExact(env, s, user, id, ap);
    case ClearOp(user, id) => ClearKeepsExact(s, user, id);
  }
}
