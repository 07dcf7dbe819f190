/**
  * What each number of the traction state stands for (packages/core/src/traction.ts:160-212, 320-329), over the router's events:
  * a wallet's first save, last trade and kinds, its days, and the trades of the last day and week.
  */
module TractionRecords {
  import opened Basics
  import opened Sums
  import opened Traction
  import opened TractionTotals
  import opened TractionReplay
  import TractionSummary

  /** The first `n` events have been counted, by whatever runs. */
  function After(history: seq<Event>, prices: seq<Pricing>): State
    requires |prices| <= |history|
  {
    Tallied(EMPTY, history, prices)
  }

  // ---- Places ----

  /** Whoever is listed stays in place. */
  ghost predicate Extends(wallets: seq<Wallet>, later: seq<Wallet>) {
    forall a :: IndexOf(wallets, a).Some? ==> IndexOf(later, a) == IndexOf(wallets, a)
  }

  lemma CountedExtends(s: State, e: Event, p: Pricing)
    ensures Extends(s.wallets, Counted(s, e, p).wallets)
    ensures IndexOf(Counted(s, e, p).wallets, e.user) == Some(PlaceOf(s.wallets, e.user))
    ensures forall a :: a != e.user ==> IndexOf(Counted(s, e, p).wallets, a) == IndexOf(s.wallets, a)
  {
    var wallets, i := Listed(s.wallets, e.user), PlaceOf(s.wallets, e.user);
    var w := WalletAfter(wallets[i], e, p);
    forall a ensures IndexOf(wallets[i := w], a) == if a == e.user then Some(i) else IndexOf(s.wallets, a) {
      ListedIndex(s.wallets, e.user, a);
      IndexOfUpdated(wallets, i, w, a);
    }
  }

  // ---- A wallet's record ----

  predicate IsSave(e: Event, user: Address) {
    e.AutopilotSet? && e.user == user
  }

  predicate IsTrade(e: Event, user: Address) {
    e.Fired? && e.user == user
  }

  /** The earliest of the user's saves among the first `n` events. */
  ghost predicate FirstSave(history: seq<Event>, n: nat, user: Address, first: Option<int>)
    requires n <= |history|
  {
    && (first.None? <==> forall k :: 0 <= k < n ==> !IsSave(history[k], user))
    && (first.Some? ==>
          && (exists k :: 0 <= k < n && IsSave(history[k], user) && history[k].at == first.value)
          && (forall k :: 0 <= k < n && IsSave(history[k], user) ==> first.value <= history[k].at))
  }

  /** The latest of its trades, and none before the epoch. */
  ghost predicate LastTrade(history: seq<Event>, n: nat, user: Address, last: Option<int>)
    requires n <= |history|
  {
    && (last.None? <==> forall k :: 0 <= k < n ==> !IsTrade(history[k], user))
    && (last.Some? ==>
          && last.value >= 0
          && (last.value == 0 || exists k :: 0 <= k < n && IsTrade(history[k], user) && history[k].at == last.value)
          && (forall k :: 0 <= k < n && IsTrade(history[k], user) ==> history[k].at <= last.value))
  }

  function TradesOfKind(history: seq<Event>, n: nat, user: Address, kind: string): nat
    requires n <= |history|
  {
    if n == 0 then 0
    else TradesOfKind(history, n - 1, user, kind) + (if IsTrade(history[n - 1], user) && history[n - 1].kind == kind then 1 else 0)
  }

  /** The ids it ever saved. */
  ghost predicate SavedIds(history: seq<Event>, n: nat, user: Address, ids: seq<int>)
    requires n <= |history|
  {
    forall id :: id in ids <==> exists k :: 0 <= k < n && IsSave(history[k], user) && history[k].autopilotId == id
  }

  ghost predicate RecordIs(w: Wallet, history: seq<Event>, n: nat, user: Address)
    requires n <= |history|
  {
    && FirstSave(history, n, user, w.firstSeen)
    && LastTrade(history, n, user, w.lastTrade)
    && (forall kind :: Get(w.kinds, kind) == TradesOfKind(history, n, user, kind))
    && SavedIds(history, n, user, w.ids)
  }

  ghost predicate NoEvents(history: seq<Event>, n: nat, user: Address)
    requires n <= |history|
  {
    forall k :: 0 <= k < n ==> history[k].user != user
  }

  lemma {:induction false} NoTrades(history: seq<Event>, n: nat, user: Address, kind: string)
    requires n <= |history| && NoEvents(history, n, user)
    ensures TradesOfKind(history, n, user, kind) == 0
  {
    if n > 0 {
      NoTrades(history, n - 1, user, kind);
    }
  }

  lemma NewRecord(history: seq<Event>, n: nat, user: Address)
    requires n <= |history| && NoEvents(history, n, user)
    ensures RecordIs(NewWallet(user), history, n, user)
  {
    forall kind ensures TradesOfKind(history, n, user, kind) == 0 {
      NoTrades(history, n, user, kind);
    }
  }

  lemma SaveRecorded(w: Wallet, history: seq<Event>, n: nat, user: Address, first: Option<int>, e: Event)
    requires n < |history| && history[n] == e && IsSave(e, user) && FirstSave(history, n, user, w.firstSeen)
    requires first == Some(if w.firstSeen.None? then e.at else Min(w.firstSeen.value, e.at))
    ensures FirstSave(history, n + 1, user, first)
  {
    var m := n + 1;
    if w.firstSeen.Some? && w.firstSeen.value < e.at {
      var k :| 0 <= k < n && IsSave(history[k], user) && history[k].at == w.firstSeen.value;
      assert 0 <= k < m && IsSave(history[k], user) && history[k].at == first.value;
    } else {
      assert 0 <= n < m && IsSave(history[n], user) && history[n].at == first.value;
    }
  }

  lemma TradeRecorded(w: Wallet, history: seq<Event>, n: nat, user: Address, last: Option<int>, e: Event)
    requires n < |history| && history[n] == e && IsTrade(e, user) && LastTrade(history, n, user, w.lastTrade)
    requires last == Some(Max(if w.lastTrade.None? then 0 else w.lastTrade.value, e.at))
    ensures LastTrade(history, n + 1, user, last)
  {
    var m := n + 1;
    if last.value == e.at {
      assert 0 <= n < m && IsTrade(history[n], user) && history[n].at == last.value;
    } else if last.value != 0 {
      var k :| 0 <= k < n && IsTrade(history[k], user) && history[k].at == last.value;
      assert 0 <= k < m && IsTrade(history[k], user) && history[k].at == last.value;
    }
  }

  lemma OtherFirst(history: seq<Event>, n: nat, user: Address, first: Option<int>)
    requires n < |history| && !IsSave(history[n], user) && FirstSave(history, n, user, first)
    ensures FirstSave(history, n + 1, user, first)
  {
    if first.Some? {
      var m := n + 1;
      var k :| 0 <= k < n && IsSave(history[k], user) && history[k].at == first.value;
      assert 0 <= k < m && IsSave(history[k], user) && history[k].at == first.value;
    }
  }

  lemma OtherLast(history: seq<Event>, n: nat, user: Address, last: Option<int>)
    requires n < |history| && !IsTrade(history[n], user) && LastTrade(history, n, user, last)
    ensures LastTrade(history, n + 1, user, last)
  {
    if last.Some? && last.value != 0 {
      var m := n + 1;
      var k :| 0 <= k < n && IsTrade(history[k], user) && history[k].at == last.value;
      assert 0 <= k < m && IsTrade(history[k], user) && history[k].at == last.value;
    }
  }

  lemma IdsRecorded(history: seq<Event>, n: nat, user: Address, ids: seq<int>)
    requires n < |history| && SavedIds(history, n, user, ids)
    ensures SavedIds(history, n + 1, user, if IsSave(history[n], user) then AddOnce(ids, history[n].autopilotId) else ids)
  {
    var m := n + 1;
    var after := if IsSave(history[n], user) then AddOnce(ids, history[n].autopilotId) else ids;
    forall id ensures id in after <==> exists k :: 0 <= k < m && IsSave(history[k], user) && history[k].autopilotId == id {
      if id in ids {
        var k :| 0 <= k < n && IsSave(history[k], user) && history[k].autopilotId == id;
        assert 0 <= k < m && IsSave(history[k], user) && history[k].autopilotId == id;
      } else if id in after {
        assert 0 <= n < m && IsSave(history[n], user) && history[n].autopilotId == id;
      }
      if k :| 0 <= k < m && IsSave(history[k], user) && history[k].autopilotId == id {
        assert k < n ==> id in ids;
      }
    }
  }

  lemma KindsRecorded(w: Wallet, history: seq<Event>, n: nat, user: Address, p: Pricing, kind: string)
    requires n < |history| && history[n].user == user && Get(w.kinds, kind) == TradesOfKind(history, n, user, kind)
    ensures Get(WalletAfter(w, history[n], p).kinds, kind) == TradesOfKind(history, n + 1, user, kind)
  {
    var e := history[n];
    if e.Fired? {
      assert WalletAfter(w, e, p).kinds == Bump(w.kinds, e.kind);
    }
  }

  /** The user's own event. */
  lemma OwnEvent(w: Wallet, history: seq<Event>, n: nat, user: Address, p: Pricing)
    requires n < |history| && history[n].user == user && RecordIs(w, history, n, user)
    ensures RecordIs(WalletAfter(w, history[n], p), history, n + 1, user)
  {
    var e, v := history[n], WalletAfter(w, history[n], p);
    IdsRecorded(history, n, user, w.ids);
    forall kind ensures Get(v.kinds, kind) == TradesOfKind(history, n + 1, user, kind) {
      KindsRecorded(w, history, n, user, p, kind);
    }
    if e.AutopilotSet? {
      SaveRecorded(w, history, n, user, v.firstSeen, e);
    } else {
      OtherFirst(history, n, user, w.firstSeen);
    }
    if e.Fired? {
      TradeRecorded(w, history, n, user, v.lastTrade, e);
    } else {
      OtherLast(history, n, user, w.lastTrade);
    }
  }

  /** Somebody else's. */
  lemma OthersEvent(w: Wallet, history: seq<Event>, n: nat, user: Address)
    requires n < |history| && history[n].user != user && RecordIs(w, history, n, user)
    ensures RecordIs(w, history, n + 1, user)
  {
    OtherFirst(history, n, user, w.firstSeen);
    OtherLast(history, n, user, w.lastTrade);
    IdsRecorded(history, n, user, w.ids);
  }

  /** Exactly the users with an event are listed, each with its record. */
  ghost predicate RecordsAre(wallets: seq<Wallet>, history: seq<Event>, n: nat, user: Address)
    requires n <= |history|
  {
    match IndexOf(wallets, user)
    case None => NoEvents(history, n, user)
    case Some(i) => !NoEvents(history, n, user) && wallets[i].address == user && RecordIs(wallets[i], history, n, user)
  }

  lemma CountedRecord(s: State, history: seq<Event>, n: nat, user: Address, p: Pricing)
    requires n < |history| && RecordsAre(s.wallets, history, n, user)
    ensures RecordsAre(Counted(s, history[n], p).wallets, history, n + 1, user)
  {
    var e := history[n];
    var t, i := Counted(s, e, p), PlaceOf(s.wallets, e.user);
    CountedExtends(s, e, p);
    ListedIndex(s.wallets, e.user, user);
    if e.user == user {
      if IndexOf(s.wallets, user).None? {
        NewRecord(history, n, user);
      }
      OwnEvent(Listed(s.wallets, user)[i], history, n, user, p);
    } else if IndexOf(s.wallets, user).Some? {
      OthersEvent(s.wallets[IndexOf(s.wallets, user).value], history, n, user);
    }
  }

  lemma {:induction false} RecordsFollowTheEvents(history: seq<Event>, prices: seq<Pricing>, user: Address)
    requires |prices| <= |history|
    ensures RecordsAre(After(history, prices).wallets, history, |prices|, user)
  {
    if prices != [] {
      var n := |prices| - 1;
      RecordsFollowTheEvents(history, prices[..n], user);
      CountedRecord(After(history, prices[..n]), history, n, user, prices[n]);
    }
  }

  // ---- Days ----

  /** What the user's events of one UTC day are worth. */
  function DaySum(history: seq<Event>, prices: seq<Pricing>, user: Address, day: int, f: Field): int
    requires |prices| <= |history|
  {
    if prices == [] then 0
    else
      var n := |prices| - 1;
      var e := history[n];
      DaySum(history, prices[..n], user, day, f) + (if e.user == user && e.at / 86_400_000 == day then Part(Delta(e, prices[n]), f) else 0)
  }

  function DayPartOf(s: State, user: Address, day: int, f: Field): int {
    match IndexOf(s.wallets, user)
    case None => 0
    case Some(i) => Part(CellAt(Row(s.days, day), i), f)
  }

  lemma CellOfDay(days: Days, i: nat, e: Event, p: Pricing, day: int, j: nat, f: Field)
    ensures Part(CellAt(Row(DaysAfter(days, i, e, p), day), j), f)
         == Part(CellAt(Row(days, day), j), f) + (if j == i && e.at / 86_400_000 == day then Part(Delta(e, p), f) else 0)
  {
    EventAdds(NewWallet(""), CellAt(Row(days, DayOf(e.at)), i), e, p, f);
  }

  lemma CountedDay(s: State, e: Event, p: Pricing, user: Address, day: int, f: Field)
    requires RowsWithin(s.days, s.hours, |s.wallets|)
    ensures DayPartOf(Counted(s, e, p), user, day, f)
         == DayPartOf(s, user, day, f) + (if e.user == user && e.at / 86_400_000 == day then Part(Delta(e, p), f) else 0)
  {
    var i := PlaceOf(s.wallets, e.user);
    CountedExtends(s, e, p);
    if IndexOf(Counted(s, e, p).wallets, user).Some? {
      CellOfDay(s.days, i, e, p, day, IndexOf(Counted(s, e, p).wallets, user).value, f);
    }
    if IndexOf(s.wallets, e.user).None? {
      assert i == |s.wallets| && i !in Row(s.days, day);
    }
  }

  lemma {:induction false} RowsStayWithin(history: seq<Event>, prices: seq<Pricing>)
    requires |prices| <= |history|
    ensures RowsWithin(After(history, prices).days, After(history, prices).hours, |After(history, prices).wallets|)
  {
    if prices != [] {
      var n := |prices| - 1;
      RowsStayWithin(history, prices[..n]);
      CountedRows(After(history, prices[..n]), history[n], prices[n]);
    }
  }

  lemma {:induction false} DaysFollowTheEvents(history: seq<Event>, prices: seq<Pricing>, user: Address, day: int, f: Field)
    requires |prices| <= |history|
    ensures DayPartOf(After(history, prices), user, day, f) == DaySum(history, prices, user, day, f)
  {
    if prices != [] {
      var n := |prices| - 1;
      DaysFollowTheEvents(history, prices[..n], user, day, f);
      RowsStayWithin(history, prices[..n]);
      CountedDay(After(history, prices[..n]), history[n], prices[n], user, day, f);
    }
  }

  // ---- The last day and the last week ----

  /** A trade of a kept wallet whose hour began less than `span` ago. */
  ghost predicate RecentTrade(e: Event, wallets: seq<Wallet>, keep: Keep, now: int, span: int) {
    e.Fired? && now - (e.at - e.at % 3_600_000) < span && keep(PlaceOf(wallets, e.user))
  }

  ghost function RecentTrades(history: seq<Event>, n: nat, wallets: seq<Wallet>, keep: Keep, now: int, span: int): nat
    requires n <= |history|
  {
    if n == 0 then 0
    else RecentTrades(history, n - 1, wallets, keep, now, span) + (if RecentTrade(history[n - 1], wallets, keep, now, span) then 1 else 0)
  }

  lemma HourStart(at: int)
    ensures HourOf(at) == at - at % 3_600_000
  {
  }

  lemma CountedRecent(hours: Hours, i: nat, e: Event, keep: Keep, now: int, span: int)
    ensures GridSum(TractionSummary.Recent(HoursAfter(hours, i, e), now, span), keep)
         == GridSum(TractionSummary.Recent(hours, now, span), keep) + (if e.Fired? && now - HourOf(e.at) < span && keep(i) then 1 else 0)
  {
    if e.Fired? {
      var h, recent := HourOf(e.at), TractionSummary.Recent(hours, now, span);
      assert HoursAfter(hours, i, e) == Raised(hours, h, i, 1);
      if now - h < span {
        assert TractionSummary.Recent(Raised(hours, h, i, 1), now, span) == Raised(recent, h, i, 1);
        RaisedSum(recent, h, i, 1, keep);
      } else {
        assert TractionSummary.Recent(Raised(hours, h, i, 1), now, span) == recent;
      }
    }
  }

  lemma {:induction false} RecentFollowTheEvents(history: seq<Event>, prices: seq<Pricing>, wallets: seq<Wallet>, keep: Keep, now: int, span: int)
    requires |prices| <= |history| && Extends(After(history, prices).wallets, wallets)
    ensures GridSum(TractionSummary.Recent(After(history, prices).hours, now, span), keep)
         == RecentTrades(history, |prices|, wallets, keep, now, span)
  {
    if prices == [] {
      assert RowSums(TractionSummary.Recent(map[], now, span), keep) == map[];
    } else {
      var n := |prices| - 1;
      var s, e := After(history, prices[..n]), history[n];
      CountedExtends(s, e, prices[n]);
      RecentFollowTheEvents(history, prices[..n], wallets, keep, now, span);
      CountedRecent(s.hours, PlaceOf(s.wallets, e.user), e, keep, now, span);
      HourStart(e.at);
      assert PlaceOf(wallets, e.user) == PlaceOf(s.wallets, e.user);
    }
  }

  /** What a run drops is too old for either count. */
  lemma TrimKeepsRecent(s: State, trimmed: int, now: int, span: int)
    requires trimmed <= now && span <= 7 * 86_400_000
    ensures TractionSummary.Recent(Trim(s, trimmed).hours, now, span) == TractionSummary.Recent(s.hours, now, span)
  {
  }

  // ---- After any runs ----

  /**
    * After any runs over the router's history and until the next: exactly the users with an event are listed, each with its
    * first save, last trade, kinds and ids; each day's cell is the worth of that day's events; and the headline's day and week
    * of any choice of wallets count the trades whose hour began within them.
    */
  lemma RunsRecordTheEvents(history: seq<Event>, batches: seq<Read>, keep: Keep, now: int, c: TractionSummary.Counts, user: Address, day: int, f: Field)
    requires Ordered(EMPTY, history) && batches != [] && Contiguous(batches, |history|) && batches[|batches| - 1].now <= now
    requires TractionSummary.CountsAre(c, AfterReads(EMPTY, history, batches), keep, now)
    ensures Covered(batches) <= |history|
    ensures var s, n := AfterReads(EMPTY, history, batches), Covered(batches);
            && RecordsAre(s.wallets, history, n, user)
            && DayPartOf(s, user, day, f) == DaySum(history, PricesOf(batches), user, day, f)
            && c.trades24h == RecentTrades(history, n, s.wallets, keep, now, 86_400_000)
            && c.trades7d == RecentTrades(history, n, s.wallets, keep, now, 7 * 86_400_000)
  {
    var prices, trimmed := PricesOf(batches), batches[|batches| - 1].now;
    RunsCountEachEventOnce(EMPTY, history, batches);
    var s := After(history, prices);
    RecordsFollowTheEvents(history, prices, user);
    DaysFollowTheEvents(history, prices, user, day, f);
    RecentFollowTheEvents(history, prices, s.wallets, keep, now, 86_400_000);
    RecentFollowTheEvents(history, prices, s.wallets, keep, now, 7 * 86_400_000);
    TrimKeepsRecent(s, trimmed, now, 86_400_000);
    TrimKeepsRecent(s, trimmed, now, 7 * 86_400_000);
  }

  // ---- What the views say ----

  lemma {:induction false} UnknownAreAdded(wallets: seq<Wallet>, addresses: seq<Address>, a: Address)
    ensures var before, later := IndexOf(wallets, a), WithUnknown(wallets, addresses);
            var after := IndexOf(later, a);
            && (before.Some? ==> after == before && later[before.value] == wallets[before.value])
            && (before.None? ==> (after.Some? <==> a in addresses) && (after.Some? ==> later[after.value] == NewWallet(a)))
  {
    if addresses != [] {
      var front, last := addresses[..|addresses| - 1], addresses[|addresses| - 1];
      assert addresses == front + [last];
      UnknownAreAdded(wallets, front, a);
      ListedIndex(WithUnknown(wallets, front), last, a);
    }
  }

  lemma {:induction false} SameAddresses(wallets: seq<Wallet>, others: seq<Wallet>, a: Address)
    requires |wallets| == |others| && forall i :: 0 <= i < |wallets| ==> wallets[i].address == others[i].address
    ensures IndexOf(wallets, a) == IndexOf(others, a)
  {
    if wallets != [] {
      SameAddresses(wallets[..|wallets| - 1], others[..|others| - 1], a);
    }
  }

  /** The views' counts are set on everyone they mention, listed or new, and nothing is live of anyone else. */
  lemma LiveCountsAre(s: State, addresses: seq<Address>, live: map<Address, Live>, a: Address)
    requires forall x :: x in live <==> x in addresses
    ensures var t := AppliedLive(s, addresses, live);
            var before, after := IndexOf(s.wallets, a), IndexOf(t.wallets, a);
            && (after.Some? <==> before.Some? || a in live)
            && (after.Some? ==>
                  t.wallets[after.value] == (if before.Some? then s.wallets[before.value] else NewWallet(a)).(live := if a in live then live[a] else Live(0, 0)))
            && t.days == s.days && t.hours == s.hours && t.lastEventId == s.lastEventId && t.unpriced == s.unpriced
  {
    UnknownAreAdded(s.wallets, addresses, a);
    SameAddresses(WithUnknown(s.wallets, addresses), AppliedLive(s, addresses, live).wallets, a);
  }
}
