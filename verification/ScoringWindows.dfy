/**
  * Which transfers a run of the indexer reads (keeper/scripts/competition.ts:166-204): those of the ledgers after the last
  * run's, as far back as the network still answers and as far as the competition runs.
  */
module ScoringWindows {
  import opened Basics
  import opened Sums
  import opened Scoring

  /** A transfer and the ledger it is in. */
  datatype Event = Event(ledger: nat, transfer: Transfer)

  /** What a run finds: the network's latest ledger, the oldest one it can still ask for, the prices, and what the wallet holds. */
  datatype Look = Look(latest: nat, oldest: nat, prices: map<string, real>, held: Holdings)

  function From(toLedger: int, look: Look): int {
    if toLedger + 1 < look.oldest then look.oldest else toLedger + 1
  }

  function To(look: Look, end: Option<nat>): int {
    if end.Some? && end.value < look.latest then end.value else look.latest
  }

  /** The transfers of ledgers `from` to `to`, both included, in the order of the chain. */
  function Between(chain: seq<Event>, from: int, to: int): seq<Transfer> {
    if chain == [] then []
    else
      var e := chain[|chain| - 1];
      Between(chain[..|chain| - 1], from, to) + (if from <= e.ledger <= to then [e.transfer] else [])
  }

  /** The transactions of those ledgers that the router says an autopilot fired in. */
  function FiredIn(firedAt: map<string, nat>, from: int, to: int): set<string> {
    set tx | tx in firedAt && from <= firedAt[tx] <= to
  }

  /** The ledger a run is through with. */
  function Through(toLedger: int, look: Look, end: Option<nat>): int {
    if From(toLedger, look) <= To(look, end) then To(look, end) else toLedger
  }

  /** One run: it reads its stretch of ledgers, if there is one, and scores what the wallet holds. */
  method IndexRun(prev: Totals, toLedger: int, chain: seq<Event>, firedAt: map<string, nat>, look: Look, end: Option<nat>, env: Env)
    returns (state: Totals, through: int, pnl: real, returnPct: Option<real>)
    ensures through == Through(toLedger, look, end)
    ensures var from, to := From(toLedger, look), To(look, end);
            state == Indexed(prev, Between(chain, from, to), FiredIn(firedAt, from, to), look.held, env.(prices := look.prices))
    ensures pnl == Pnl(state, ScoredValue(state, look.held, env.(prices := look.prices))) && returnPct == ReturnPct(pnl, NetIn(state))
  {
    var to, from := To(look, end), From(toLedger, look);
    var transfers: seq<Transfer>, fired: set<string> := [], {};
    through := toLedger;
    if from <= to {
      transfers := Select(chain, from, to);
      fired := FiredIn(firedAt, from, to);
      through := to;
    } else {
      NothingBetween(chain, from, to);
      assert FiredIn(firedAt, from, to) == {};
    }
    state, pnl, returnPct := IndexEntry(prev, transfers, fired, look.held, env.(prices := look.prices));
  }

  method Select(chain: seq<Event>, from: int, to: int) returns (out: seq<Transfer>)
    ensures out == Between(chain, from, to)
  {
    out := [];
    for i := 0 to |chain|
      invariant out == Between(chain[..i], from, to)
    {
      assert chain[..i + 1][..i] == chain[..i];
      if from <= chain[i].ledger <= to {
        out := out + [chain[i].transfer];
      }
    }
    assert chain[..|chain|] == chain;
  }

  lemma {:induction false} NothingBetween(chain: seq<Event>, from: int, to: int)
    requires to < from
    ensures Between(chain, from, to) == []
  {
    if chain != [] {
      NothingBetween(chain[..|chain| - 1], from, to);
    }
  }

  // ---- Over many runs ----

  function ThroughAll(start: int, looks: seq<Look>, end: Option<nat>): int {
    if looks == [] then start - 1 else Through(ThroughAll(start, looks[..|looks| - 1], end), looks[|looks| - 1], end)
  }

  /** Everything the runs read, one after the other. */
  function ReadAll(chain: seq<Event>, start: int, looks: seq<Look>, end: Option<nat>): seq<Transfer> {
    if looks == [] then []
    else
      var front, look := looks[..|looks| - 1], looks[|looks| - 1];
      ReadAll(chain, start, front, end) + Between(chain, From(ThroughAll(start, front, end), look), To(look, end))
  }

  lemma {:induction false} BetweenSplits(chain: seq<Event>, from: int, mid: int, to: int)
    requires from <= mid + 1 && mid <= to
    ensures multiset(Between(chain, from, to)) == multiset(Between(chain, from, mid)) + multiset(Between(chain, mid + 1, to))
  {
    if chain != [] {
      BetweenSplits(chain[..|chain| - 1], from, mid, to);
    }
  }

  /** No run came so late that ledgers after the last one were already gone. */
  ghost predicate NoGap(start: int, looks: seq<Look>, end: Option<nat>) {
    forall i :: 0 <= i < |looks| ==> looks[i].oldest <= ThroughAll(start, looks[..i], end) + 1
  }

  lemma AppendedIsSame<T>(a: seq<T>, b: seq<T>, first: seq<T>, whole: seq<T>)
    requires multiset(a) == multiset(first) && multiset(whole) == multiset(first) + multiset(b)
    ensures multiset(a + b) == multiset(whole)
  {
  }

  lemma OneMoreRun(chain: seq<Event>, start: int, done: int, look: Look, end: Option<nat>, sofar: seq<Transfer>)
    requires start - 1 <= done && look.oldest <= done + 1 && multiset(sofar) == multiset(Between(chain, start, done))
    ensures start - 1 <= Through(done, look, end)
    ensures multiset(sofar + Between(chain, From(done, look), To(look, end))) == multiset(Between(chain, start, Through(done, look, end)))
  {
    var to := To(look, end);
    if done + 1 <= to {
      BetweenSplits(chain, start, done, to);
      AppendedIsSame(sofar, Between(chain, done + 1, to), Between(chain, start, done), Between(chain, start, to));
    } else {
      NothingBetween(chain, done + 1, to);
      assert sofar + [] == sofar;
    }
  }

  lemma NoGapBefore(start: int, looks: seq<Look>, end: Option<nat>)
    requires NoGap(start, looks, end) && looks != []
    ensures NoGap(start, looks[..|looks| - 1], end)
    ensures looks[|looks| - 1].oldest <= ThroughAll(start, looks[..|looks| - 1], end) + 1
  {
    var front := looks[..|looks| - 1];
    forall i | 0 <= i < |front| ensures front[i].oldest <= ThroughAll(start, front[..i], end) + 1 {
      assert front[..i] == looks[..i];
    }
  }

  /** The last ledger a look lets a run reach: the network's latest, but none after the end. */
  function Reach(look: Look, end: Option<nat>): nat {
    if end.None? || look.latest <= end.value then look.latest else end.value
  }

  /** The runs are through with the furthest ledger any of their looks let them reach, if that is past the start. */
  lemma {:induction false} ThroughIsTheFurthest(start: int, looks: seq<Look>, end: Option<nat>)
    requires NoGap(start, looks, end)
    ensures ThroughAll(start, looks, end) >= start - 1
    ensures forall i :: 0 <= i < |looks| ==> Reach(looks[i], end) <= ThroughAll(start, looks, end)
    ensures ThroughAll(start, looks, end) == start - 1 || exists i :: 0 <= i < |looks| && Reach(looks[i], end) == ThroughAll(start, looks, end)
  {
    if looks != [] {
      var front := looks[..|looks| - 1];
      NoGapBefore(start, looks, end);
      ThroughIsTheFurthest(start, front, end);
      var done, through := ThroughAll(start, front, end), ThroughAll(start, looks, end);
      forall i | 0 <= i < |looks| ensures Reach(looks[i], end) <= through {
        assert i < |front| ==> Reach(front[i], end) <= done;
      }
      if through == done && done != start - 1 {
        var i :| 0 <= i < |front| && Reach(front[i], end) == done;
        assert Reach(looks[i], end) == through;
      } else if through != done {
        assert Reach(looks[|looks| - 1], end) == through;
      }
    }
  }

  /** Each transfer up to the ledger the runs are through with is read exactly once, however often and irregularly they came. */
  lemma {:induction false} EachTransferOnce(chain: seq<Event>, start: int, looks: seq<Look>, end: Option<nat>)
    requires NoGap(start, looks, end)
    ensures start - 1 <= ThroughAll(start, looks, end)
    ensures multiset(ReadAll(chain, start, looks, end)) == multiset(Between(chain, start, ThroughAll(start, looks, end)))
  {
    if looks == [] {
      NothingBetween(chain, start, start - 1);
    } else {
      var front := looks[..|looks| - 1];
      NoGapBefore(start, looks, end);
      EachTransferOnce(chain, start, front, end);
      OneMoreRun(chain, start, ThroughAll(start, front, end), looks[|looks| - 1], end, ReadAll(chain, start, front, end));
    }
  }

  // ---- What they count ----

  /** A transaction is in one ledger: its transfers, and what the router reports of it. */
  ghost predicate OneLedger(chain: seq<Event>, firedAt: map<string, nat>, ledgers: map<string, nat>) {
    && (forall i :: 0 <= i < |chain| ==> LedgerOf(ledgers, chain[i].transfer.tx) == chain[i].ledger)
    && (forall tx :: tx in firedAt ==> LedgerOf(ledgers, tx) == firedAt[tx])
  }

  function LedgerOf(ledgers: map<string, nat>, tx: string): nat {
    if tx in ledgers then ledgers[tx] else 0
  }

  lemma {:induction false} BetweenIsInLedgers(chain: seq<Event>, firedAt: map<string, nat>, ledgers: map<string, nat>, from: int, to: int, k: nat)
    requires OneLedger(chain, firedAt, ledgers) && k < |Between(chain, from, to)|
    ensures from <= LedgerOf(ledgers, Between(chain, from, to)[k].tx) <= to
  {
    var front := chain[..|chain| - 1];
    if k < |Between(front, from, to)| {
      BetweenIsInLedgers(front, firedAt, ledgers, from, to, k);
    }
  }

  lemma LegsAreInLedgers(chain: seq<Event>, firedAt: map<string, nat>, ledgers: map<string, nat>, from: int, to: int, v: Valuation)
    requires OneLedger(chain, firedAt, ledgers) && BooksUnderTx(v)
    ensures forall tx :: tx in TallyBy(Between(chain, from, to), v).legs ==> from <= LedgerOf(ledgers, tx) <= to
  {
    forall tx | tx in TallyBy(Between(chain, from, to), v).legs ensures from <= LedgerOf(ledgers, tx) <= to {
      LegsAreTheirs(Between(chain, from, to), tx, v);
      var k :| 0 <= k < |Between(chain, from, to)| && Between(chain, from, to)[k].tx == tx;
      BetweenIsInLedgers(chain, firedAt, ledgers, from, to, k);
    }
  }

  /** The transactions of two stretches are different ones, and fired in the whole exactly when in their own. */
  lemma StretchesAreApart(chain: seq<Event>, firedAt: map<string, nat>, ledgers: map<string, nat>, start: int, mid: int, to: int, v: Valuation)
    requires OneLedger(chain, firedAt, ledgers) && BooksUnderTx(v) && start <= mid + 1 && mid <= to
    ensures var a, b := TallyBy(Between(chain, start, mid), v).legs, TallyBy(Between(chain, mid + 1, to), v).legs;
            && a.Keys !! b.Keys
            && (forall tx :: tx in a ==> (tx in FiredIn(firedAt, start, mid) <==> tx in FiredIn(firedAt, start, to)))
            && (forall tx :: tx in b ==> (tx in FiredIn(firedAt, mid + 1, to) <==> tx in FiredIn(firedAt, start, to)))
  {
    LegsAreInLedgers(chain, firedAt, ledgers, start, mid, v);
    LegsAreInLedgers(chain, firedAt, ledgers, mid + 1, to, v);
  }

  lemma ManualJoins(a: map<string, Leg>, b: map<string, Leg>, firedA: set<string>, firedB: set<string>, fired: set<string>)
    requires a.Keys !! b.Keys
    requires (forall tx :: tx in a ==> (tx in firedA <==> tx in fired)) && forall tx :: tx in b ==> (tx in firedB <==> tx in fired)
    ensures |Manual(a + b, fired)| == |Manual(a, firedA)| + |Manual(b, firedB)|
  {
    assert Manual(a + b, fired) == Manual(a, firedA) + Manual(b, firedB);
    assert Manual(a, firedA) !! Manual(b, firedB);
  }

  lemma PlusJoins(s: Totals, a: Tally, b: Tally, firedA: set<string>, firedB: set<string>, fired: set<string>)
    requires a.legs.Keys !! b.legs.Keys
    requires forall tx :: tx in a.legs ==> (tx in firedA <==> tx in fired)
    requires forall tx :: tx in b.legs ==> (tx in firedB <==> tx in fired)
    ensures Plus(Plus(s, a, firedA), b, firedB) == Plus(s, Joined(a, b), fired)
  {
    EdgesJoin(a.legs, b.legs);
    ManualJoins(a.legs, b.legs, firedA, firedB, fired);
  }

  /** The tally of the whole is those of its stretches. */
  lemma TallyOfStretches(chain: seq<Event>, firedAt: map<string, nat>, ledgers: map<string, nat>, start: int, mid: int, to: int, v: Valuation)
    requires OneLedger(chain, firedAt, ledgers) && BooksUnderTx(v) && start <= mid + 1 && mid <= to
    ensures TallyBy(Between(chain, start, to), v) == Joined(TallyBy(Between(chain, start, mid), v), TallyBy(Between(chain, mid + 1, to), v))
  {
    var first, second := Between(chain, start, mid), Between(chain, mid + 1, to);
    StretchesAreApart(chain, firedAt, ledgers, start, mid, to, v);
    BetweenSplits(chain, start, mid, to);
    TransferOrderIsIrrelevant(first + second, Between(chain, start, to), v);
    FoldBoth(Adder(v), NO_TALLY, first, second);
    TallyJoins(TallyBy(first, v), second, v);
  }

  /** The totals that count the transfers of some ledgers, each by `v`. */
  ghost function CountedBy(prev: Totals, chain: seq<Event>, firedAt: map<string, nat>, from: int, to: int, v: Valuation): Totals {
    Plus(prev, TallyBy(Between(chain, from, to), v), FiredIn(firedAt, from, to))
  }

  /** Two stretches counted one after the other are the whole counted at once. */
  lemma CountedBoth(prev: Totals, chain: seq<Event>, firedAt: map<string, nat>, ledgers: map<string, nat>, start: int, mid: int, to: int, v: Valuation)
    requires OneLedger(chain, firedAt, ledgers) && BooksUnderTx(v) && start <= mid + 1 && mid <= to
    ensures CountedBy(CountedBy(prev, chain, firedAt, start, mid, v), chain, firedAt, mid + 1, to, v) == CountedBy(prev, chain, firedAt, start, to, v)
  {
    var a, b := TallyBy(Between(chain, start, mid), v), TallyBy(Between(chain, mid + 1, to), v);
    StretchesAreApart(chain, firedAt, ledgers, start, mid, to, v);
    TallyOfStretches(chain, firedAt, ledgers, start, mid, to, v);
    PlusJoins(prev, a, b, FiredIn(firedAt, start, mid), FiredIn(firedAt, mid + 1, to), FiredIn(firedAt, start, to));
  }

  lemma NothingCounted(s: Totals, chain: seq<Event>, firedAt: map<string, nat>, from: int, to: int, v: Valuation)
    requires to < from
    ensures CountedBy(s, chain, firedAt, from, to, v) == s
  {
    NothingBetween(chain, from, to);
    assert FiredIn(firedAt, from, to) == {};
    assert Edges(map[]) == map[] && Manual(map[], {}) == {};
  }

  lemma OneMoreStretch(prev: Totals, chain: seq<Event>, firedAt: map<string, nat>, ledgers: map<string, nat>, start: int, done: int, look: Look, end: Option<nat>, v: Valuation)
    requires OneLedger(chain, firedAt, ledgers) && BooksUnderTx(v) && start - 1 <= done && look.oldest <= done + 1
    ensures CountedBy(CountedBy(prev, chain, firedAt, start, done, v), chain, firedAt, From(done, look), To(look, end), v)
         == CountedBy(prev, chain, firedAt, start, Through(done, look, end), v)
  {
    if done + 1 <= To(look, end) {
      CountedBoth(prev, chain, firedAt, ledgers, start, done, To(look, end), v);
    } else {
      NothingCounted(CountedBy(prev, chain, firedAt, start, done, v), chain, firedAt, done + 1, To(look, end), v);
    }
  }

  // ---- Each transfer at the prices of the run that reads it ----

  /** The prices of the run whose stretch a ledger is in. */
  function PricesAt(start: int, looks: seq<Look>, end: Option<nat>, ledger: int): map<string, real> {
    if looks == [] then map[]
    else if ledger <= ThroughAll(start, looks[..|looks| - 1], end) then PricesAt(start, looks[..|looks| - 1], end, ledger)
    else looks[|looks| - 1].prices
  }

  function AsRead(start: int, looks: seq<Look>, end: Option<nat>, ledgers: map<string, nat>, env: Env): Valuation {
    (e: Transfer) => Classify(e, env.(prices := PricesAt(start, looks, end, LedgerOf(ledgers, e.tx))))
  }

  lemma ClassifyBooksUnderTx(start: int, looks: seq<Look>, end: Option<nat>, ledgers: map<string, nat>, env: Env)
    ensures BooksUnderTx(AsRead(start, looks, end, ledgers, env))
  {
  }

  /** A run leaves the prices of what was read before as they were, and reads the rest at its own. */
  lemma ValuedBefore(chain: seq<Event>, firedAt: map<string, nat>, ledgers: map<string, nat>, start: int, looks: seq<Look>, end: Option<nat>, env: Env)
    requires OneLedger(chain, firedAt, ledgers) && looks != []
    ensures var front := looks[..|looks| - 1];
            var part := Between(chain, start, ThroughAll(start, front, end));
            TallyBy(part, AsRead(start, looks, end, ledgers, env)) == TallyBy(part, AsRead(start, front, end, ledgers, env))
  {
    var front := looks[..|looks| - 1];
    var done := ThroughAll(start, front, end);
    var part, v, w := Between(chain, start, done), AsRead(start, looks, end, ledgers, env), AsRead(start, front, end, ledgers, env);
    forall k | 0 <= k < |part| ensures v(part[k]) == w(part[k]) {
      BetweenIsInLedgers(chain, firedAt, ledgers, start, done, k);
    }
    SameTally(part, v, w);
  }

  lemma ValuedNow(chain: seq<Event>, firedAt: map<string, nat>, ledgers: map<string, nat>, start: int, looks: seq<Look>, end: Option<nat>, env: Env)
    requires OneLedger(chain, firedAt, ledgers) && looks != []
    ensures var look, done := looks[|looks| - 1], ThroughAll(start, looks[..|looks| - 1], end);
            var part := Between(chain, From(done, look), To(look, end));
            TallyBy(part, AsRead(start, looks, end, ledgers, env)) == TallyOf(part, env.(prices := look.prices))
  {
    var look, done := looks[|looks| - 1], ThroughAll(start, looks[..|looks| - 1], end);
    var part := Between(chain, From(done, look), To(look, end));
    var v, w := AsRead(start, looks, end, ledgers, env), At(env.(prices := look.prices));
    forall k | 0 <= k < |part| ensures v(part[k]) == w(part[k]) {
      BetweenIsInLedgers(chain, firedAt, ledgers, From(done, look), To(look, end), k);
    }
    SameTally(part, v, w);
  }

  /** The totals after all the runs, each scoring what the wallet held when it looked, at the prices it found. */
  ghost function IndexedThrough(prev: Totals, chain: seq<Event>, firedAt: map<string, nat>, start: int, looks: seq<Look>, end: Option<nat>, env: Env): Totals {
    if looks == [] then prev
    else
      var front, look := looks[..|looks| - 1], looks[|looks| - 1];
      var from, to := From(ThroughAll(start, front, end), look), To(look, end);
      Indexed(IndexedThrough(prev, chain, firedAt, start, front, end, env), Between(chain, from, to), FiredIn(firedAt, from, to),
              look.held, env.(prices := look.prices))
  }

  /** The opening value takes no part in the counting. */
  lemma OpeningApart(s: Totals, opening: Option<real>, t: Tally, fired: set<string>)
    ensures Plus(s.(openingUsd := opening), t, fired) == Plus(s, t, fired).(openingUsd := opening)
  {
  }

  /** One more run, from totals that count the stretch before it. */
  lemma OneMoreCount(s: Totals, opening: Option<real>, prev: Totals, chain: seq<Event>, firedAt: map<string, nat>, ledgers: map<string, nat>, start: int, looks: seq<Look>, end: Option<nat>, env: Env)
    requires OneLedger(chain, firedAt, ledgers) && looks != []
    requires var front, look := looks[..|looks| - 1], looks[|looks| - 1];
             var done := ThroughAll(start, front, end);
             && start - 1 <= done && look.oldest <= done + 1
             && s == CountedBy(prev, chain, firedAt, start, done, AsRead(start, front, end, ledgers, env)).(openingUsd := opening)
    ensures var look, done := looks[|looks| - 1], ThroughAll(start, looks[..|looks| - 1], end);
            var from, to := From(done, look), To(look, end);
            Counted(s, Between(chain, from, to), FiredIn(firedAt, from, to), env.(prices := look.prices))
            == CountedBy(prev, chain, firedAt, start, Through(done, look, end), AsRead(start, looks, end, ledgers, env)).(openingUsd := opening)
  {
    var look, done := looks[|looks| - 1], ThroughAll(start, looks[..|looks| - 1], end);
    var from, to, v := From(done, look), To(look, end), AsRead(start, looks, end, ledgers, env);
    ClassifyBooksUnderTx(start, looks, end, ledgers, env);
    ValuedBefore(chain, firedAt, ledgers, start, looks, end, env);
    ValuedNow(chain, firedAt, ledgers, start, looks, end, env);
    OneMoreStretch(prev, chain, firedAt, ledgers, start, done, look, end, v);
    OpeningApart(CountedBy(prev, chain, firedAt, start, done, v), opening, TallyBy(Between(chain, from, to), v), FiredIn(firedAt, from, to));
  }

  /** The opening value is the only thing a scoring adds, and only once. */
  lemma IndexedCounts(s: Totals, transfers: seq<Transfer>, fired: set<string>, h: Holdings, env: Env)
    ensures var t := Indexed(s, transfers, fired, h, env);
            && t == Counted(s, transfers, fired, env).(openingUsd := t.openingUsd)
            && t.openingUsd.Some? && (s.openingUsd.Some? ==> t.openingUsd == s.openingUsd)
  {
  }

  /** The totals count every transfer of the ledgers read once, as read; the opening value is the one fixed first. */
  ghost predicate CountsOnce(s: Totals, prev: Totals, chain: seq<Event>, firedAt: map<string, nat>, ledgers: map<string, nat>, start: int, looks: seq<Look>, end: Option<nat>, env: Env) {
    && s == CountedBy(prev, chain, firedAt, start, ThroughAll(start, looks, end), AsRead(start, looks, end, ledgers, env)).(openingUsd := s.openingUsd)
    && (prev.openingUsd.Some? ==> s.openingUsd == prev.openingUsd)
    && (looks != [] ==> s.openingUsd.Some?)
  }

  lemma NextLook(s: Totals, prev: Totals, chain: seq<Event>, firedAt: map<string, nat>, ledgers: map<string, nat>, start: int, looks: seq<Look>, end: Option<nat>, env: Env)
    requires NoGap(start, looks, end) && OneLedger(chain, firedAt, ledgers) && looks != []
    requires CountsOnce(s, prev, chain, firedAt, ledgers, start, looks[..|looks| - 1], end, env)
    ensures var look, done := looks[|looks| - 1], ThroughAll(start, looks[..|looks| - 1], end);
            var from, to := From(done, look), To(look, end);
            CountsOnce(Indexed(s, Between(chain, from, to), FiredIn(firedAt, from, to), look.held, env.(prices := look.prices)),
                       prev, chain, firedAt, ledgers, start, looks, end, env)
  {
    var look, done := looks[|looks| - 1], ThroughAll(start, looks[..|looks| - 1], end);
    var from, to := From(done, look), To(look, end);
    NoGapBefore(start, looks, end);
    EachTransferOnce(chain, start, looks[..|looks| - 1], end);
    OneMoreCount(s, s.openingUsd, prev, chain, firedAt, ledgers, start, looks, end, env);
    IndexedCounts(s, Between(chain, from, to), FiredIn(firedAt, from, to), look.held, env.(prices := look.prices));
  }

  /**
    * So the totals after any number of runs, each at its own prices, are what one pass over all their ledgers counts, every
    * transfer once and at the prices of the run that read it, with the opening value the first scoring fixed.
    */
  lemma {:induction false} RunsCountOnce(prev: Totals, chain: seq<Event>, firedAt: map<string, nat>, ledgers: map<string, nat>, start: int, looks: seq<Look>, end: Option<nat>, env: Env)
    requires NoGap(start, looks, end) && OneLedger(chain, firedAt, ledgers)
    ensures CountsOnce(IndexedThrough(prev, chain, firedAt, start, looks, end, env), prev, chain, firedAt, ledgers, start, looks, end, env)
  {
    if looks == [] {
      NothingCounted(prev, chain, firedAt, start, start - 1, AsRead(start, looks, end, ledgers, env));
    } else {
      var front := looks[..|looks| - 1];
      NoGapBefore(start, looks, end);
      RunsCountOnce(prev, chain, firedAt, ledgers, start, front, end, env);
      NextLook(IndexedThrough(prev, chain, firedAt, start, front, end, env), prev, chain, firedAt, ledgers, start, looks, end, env);
    }
  }

  lemma {:induction false} OnePriceList(start: int, looks: seq<Look>, end: Option<nat>, prices: map<string, real>, ledger: int)
    requires looks != [] && (forall i :: 0 <= i < |looks| ==> looks[i].prices == prices) && ledger >= start
    ensures PricesAt(start, looks, end, ledger) == prices
  {
    var front := looks[..|looks| - 1];
    if front != [] {
      OnePriceList(start, front, end, prices, ledger);
    }
  }

  /** At one set of prices that is what a single run over those ledgers counts. */
  lemma RunsAreOneRun(prev: Totals, chain: seq<Event>, firedAt: map<string, nat>, ledgers: map<string, nat>, start: int, looks: seq<Look>, end: Option<nat>, env: Env)
    requires NoGap(start, looks, end) && OneLedger(chain, firedAt, ledgers) && looks != []
    requires forall i :: 0 <= i < |looks| ==> looks[i].prices == env.prices
    ensures var s, through := IndexedThrough(prev, chain, firedAt, start, looks, end, env), ThroughAll(start, looks, end);
            s == Counted(prev, Between(chain, start, through), FiredIn(firedAt, start, through), env).(openingUsd := s.openingUsd)
  {
    RunsCountOnce(prev, chain, firedAt, ledgers, start, looks, end, env);
    var through := ThroughAll(start, looks, end);
    var part, v := Between(chain, start, through), AsRead(start, looks, end, ledgers, env);
    forall k | 0 <= k < |part| ensures v(part[k]) == At(env)(part[k]) {
      BetweenIsInLedgers(chain, firedAt, ledgers, start, through, k);
      OnePriceList(start, looks, end, env.prices, LedgerOf(ledgers, part[k].tx));
    }
    SameTally(part, v, At(env));
  }
}
