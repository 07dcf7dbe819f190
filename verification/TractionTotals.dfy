/** What the folded counts keep in every reachable state: nothing is lost between wallets, days and hours. */
module TractionTotals {
  import opened Basics
  import opened Sums
  import opened Traction
  import TractionReplay

  /** The counts a wallet, a day's cell and an event have in common. */
  datatype Field = Trades | Swaps | Volume | Sets | Clears | VolumeOut

  function Part(c: Cell, f: Field): int {
    match f
    case Trades => c.fired
    case Swaps => c.swaps
    case Volume => c.volume
    case Sets => c.sets
    case Clears => c.clears
    case VolumeOut => c.volumeOut
  }

  function Totals(w: Wallet): Cell {
    Cell(w.trades, w.swaps, w.volume, w.sets, w.clears, w.volumeOut)
  }

  /** What one event is worth. */
  function Delta(e: Event, p: Pricing): Cell {
    match e
    case AutopilotSet(_, _, _, _) => NO_CELL.(sets := 1)
    case AutopilotCleared(_, _, _) => NO_CELL.(clears := 1)
    case Fired(_, _, _, _, _) => NO_CELL.(fired := 1)
    case Swapped(_, _, _, tokenIn, tokenOut, amountIn, amountOut) =>
      Cell(0, 1, Cents(OrZero(SwapUsd(tokenIn, amountIn, p))), 0, 0, Cents(OrZero(SwapUsd(tokenOut, amountOut, p))))
  }

  lemma EventAdds(w: Wallet, c: Cell, e: Event, p: Pricing, f: Field)
    ensures Part(Totals(WalletAfter(w, e, p)), f) == Part(Totals(w), f) + Part(Delta(e, p), f)
    ensures Part(CellAfter(c, e, p), f) == Part(c, f) + Part(Delta(e, p), f)
  {
    match e
    case Swapped(_, _, _, tokenIn, tokenOut, amountIn, amountOut) =>
      var usd, out := OrZero(SwapUsd(tokenIn, amountIn, p)), OrZero(SwapUsd(tokenOut, amountOut, p));
      GrownAdds(w.volume, usd);
      GrownAdds(w.volumeOut, out);
      GrownAdds(c.volume, usd);
      GrownAdds(c.volumeOut, out);
    case _ =>
  }

  // ---- Each wallet counts its own events ----

  function TotalOf(s: State, user: Address, f: Field): int {
    match IndexOf(s.wallets, user)
    case None => 0
    case Some(i) => Part(Totals(s.wallets[i]), f)
  }

  /** What the first events of a history are worth to a user, each at its own prices. */
  function EventSum(history: seq<Event>, prices: seq<Pricing>, user: Address, f: Field): int
    requires |prices| <= |history|
  {
    if prices == [] then 0
    else
      var n := |prices| - 1;
      EventSum(history, prices[..n], user, f) + (if history[n].user == user then Part(Delta(history[n], prices[n]), f) else 0)
  }

  /** Where everyone is once a user is listed: old wallets stay, the user is at its place. */
  lemma ListedIndex(wallets: seq<Wallet>, user: Address, a: Address)
    ensures IndexOf(Listed(wallets, user), user) == Some(PlaceOf(wallets, user))
    ensures a != user ==> IndexOf(Listed(wallets, user), a) == IndexOf(wallets, a)
    ensures IndexOf(wallets, a).Some? ==> IndexOf(wallets, a).value != |wallets| && Listed(wallets, user)[IndexOf(wallets, a).value] == wallets[IndexOf(wallets, a).value]
  {
    assert (wallets + [NewWallet(user)])[..|wallets|] == wallets;
  }

  lemma UpdatedTotal(wallets: seq<Wallet>, i: nat, w: Wallet, user: Address, f: Field, s: State, t: State)
    requires i < |wallets| && w.address == wallets[i].address && IndexOf(wallets, w.address) == Some(i)
    requires s.wallets == wallets && t.wallets == wallets[i := w]
    ensures TotalOf(t, user, f) == if user == w.address then Part(Totals(w), f) else TotalOf(s, user, f)
  {
    IndexOfUpdated(wallets, i, w, user);
  }

  lemma CountedTotal(s: State, e: Event, p: Pricing, user: Address, f: Field)
    ensures TotalOf(Counted(s, e, p), user, f) == TotalOf(s, user, f) + (if e.user == user then Part(Delta(e, p), f) else 0)
  {
    var wallets, i := Listed(s.wallets, e.user), PlaceOf(s.wallets, e.user);
    var w := WalletAfter(wallets[i], e, p);
    var listed, t := s.(wallets := wallets), Counted(s, e, p);
    ListedIndex(s.wallets, e.user, user);
    UpdatedTotal(wallets, i, w, user, f, listed, t);
    EventAdds(wallets[i], NO_CELL, e, p, f);
  }

  /** A wallet's counts are those of its own events, each once. */
  lemma {:induction false} TotalsAreTheEvents(s: State, history: seq<Event>, prices: seq<Pricing>, user: Address, f: Field)
    requires |prices| <= |history|
    ensures TotalOf(TractionReplay.Tallied(s, history, prices), user, f) == TotalOf(s, user, f) + EventSum(history, prices, user, f)
  {
    if prices != [] {
      var n := |prices| - 1;
      TotalsAreTheEvents(s, history, prices[..n], user, f);
      CountedTotal(TractionReplay.Tallied(s, history, prices[..n]), history[n], prices[n], user, f);
    }
  }

  /**
    * After any runs over the router's history, a wallet's counts are those of the events read that are its own, each at the
    * prices of the first run that read it.
    */
  lemma RunsCountTheEvents(history: seq<Event>, batches: seq<TractionReplay.Read>, user: Address, f: Field)
    requires TractionReplay.Ordered(EMPTY, history) && batches != [] && TractionReplay.Contiguous(batches, |history|)
    ensures TractionReplay.Covered(batches) <= |history|
    ensures TotalOf(TractionReplay.AfterReads(EMPTY, history, batches), user, f)
         == EventSum(history, TractionReplay.PricesOf(batches), user, f)
  {
    TractionReplay.RunsCountEachEventOnce(EMPTY, history, batches);
    TotalsAreTheEvents(EMPTY, history, TractionReplay.PricesOf(batches), user, f);
  }

  // ---- Sums over wallets, days and hours ----

  /** A choice of wallets, by place. */
  type Keep = nat -> bool

  function WalletSum(wallets: seq<Wallet>, keep: Keep, f: Field): int {
    if wallets == [] then 0
    else WalletSum(wallets[..|wallets| - 1], keep, f) + (if keep(|wallets| - 1) then Part(Totals(wallets[|wallets| - 1]), f) else 0)
  }

  function Kept(row: map<nat, int>, keep: Keep): map<nat, int> {
    map i | i in row && keep(i) :: row[i]
  }

  function Parts(row: map<nat, Cell>, f: Field): map<nat, int> {
    map i | i in row :: Part(row[i], f)
  }

  ghost function RowSum(row: map<nat, int>, keep: Keep): int {
    MapSum(Kept(row, keep))
  }

  ghost function RowSums(rows: map<int, map<nat, int>>, keep: Keep): map<int, int> {
    map k | k in rows :: RowSum(rows[k], keep)
  }

  function DayParts(days: Days, f: Field): map<int, map<nat, int>> {
    map d | d in days :: Parts(days[d], f)
  }

  ghost function GridSum(rows: map<int, map<nat, int>>, keep: Keep): int {
    MapSum(RowSums(rows, keep))
  }

  /** One entry of a grid raised by `more`. */
  function Raised(rows: map<int, map<nat, int>>, k: int, i: nat, more: int): map<int, map<nat, int>> {
    var row := if k in rows then rows[k] else map[];
    rows[k := row[i := Get(row, i) + more]]
  }

  lemma RaisedSum(rows: map<int, map<nat, int>>, k: int, i: nat, more: int, keep: Keep)
    ensures GridSum(Raised(rows, k, i, more), keep) == GridSum(rows, keep) + (if keep(i) then more else 0)
  {
    var row: map<nat, int> := if k in rows then rows[k] else map[];
    var raised := row[i := Get(row, i) + more];
    if keep(i) {
      assert Kept(raised, keep) == Kept(row, keep)[i := Get(row, i) + more];
      MapSumUpdate(Kept(row, keep), i, Get(row, i) + more);
    } else {
      assert Kept(raised, keep) == Kept(row, keep);
    }
    assert RowSums(Raised(rows, k, i, more), keep) == RowSums(rows, keep)[k := RowSum(raised, keep)];
    MapSumUpdate(RowSums(rows, keep), k, RowSum(raised, keep));
    if k !in rows {
      assert Kept(row, keep) == map[];
    }
  }

  lemma {:induction false} WalletSumUpdated(wallets: seq<Wallet>, i: nat, w: Wallet, keep: Keep, f: Field)
    requires i < |wallets|
    ensures WalletSum(wallets[i := w], keep, f)
         == WalletSum(wallets, keep, f) + (if keep(i) then Part(Totals(w), f) - Part(Totals(wallets[i]), f) else 0)
  {
    if i < |wallets| - 1 {
      assert wallets[i := w][..|wallets| - 1] == wallets[..|wallets| - 1][i := w];
      WalletSumUpdated(wallets[..|wallets| - 1], i, w, keep, f);
    } else {
      assert wallets[i := w][..|wallets| - 1] == wallets[..|wallets| - 1];
    }
  }

  lemma WalletSumListed(wallets: seq<Wallet>, a: Address, keep: Keep, f: Field)
    ensures WalletSum(Listed(wallets, a), keep, f) == WalletSum(wallets, keep, f)
  {
    assert (wallets + [NewWallet(a)])[..|wallets|] == wallets;
  }

  // ---- The invariant ----

  /** For any choice of wallets, what they counted is what their days say, and their hours hold no more trades than that. */
  ghost predicate Balanced(s: State, keep: Keep, f: Field) {
    && GridSum(DayParts(s.days, f), keep) == WalletSum(s.wallets, keep, f)
    && GridSum(s.hours, keep) <= WalletSum(s.wallets, keep, Trades)
  }

  predicate NoNegativeHour(hours: Hours) {
    forall h, i :: h in hours && i in hours[h] ==> hours[h][i] >= 0
  }

  lemma {:induction false} MapSumNonNegative<K(!new)>(m: map<K, int>)
    requires forall k :: k in m ==> m[k] >= 0
    ensures MapSum(m) >= 0
    decreases |m|
  {
    if m != map[] {
      var k :| k in m;
      MapSumTake(m, k);
      MapSumNonNegative(m - {k});
    }
  }

  /** Leaving out entries of a map without negative values does not raise its sum. */
  lemma {:induction false} MapSumPart<K(!new)>(m: map<K, int>, part: map<K, int>)
    requires forall k :: k in m ==> m[k] >= 0
    requires forall k :: k in part ==> k in m && m[k] == part[k]
    ensures 0 <= MapSum(part) <= MapSum(m)
    decreases |m|
  {
    if part == map[] {
      MapSumNonNegative(m);
    } else {
      var k :| k in part;
      MapSumTake(m, k);
      MapSumTake(part, k);
      MapSumPart(m - {k}, part - {k});
    }
  }

  lemma TrimmedSum(hours: Hours, cutoff: int, keep: Keep)
    requires NoNegativeHour(hours)
    ensures GridSum(TrimHours(hours, cutoff), keep) <= GridSum(hours, keep) && NoNegativeHour(TrimHours(hours, cutoff))
  {
    forall h | h in hours ensures RowSum(hours[h], keep) >= 0 {
      MapSumNonNegative(Kept(hours[h], keep));
    }
    MapSumPart(RowSums(hours, keep), RowSums(TrimHours(hours, cutoff), keep));
  }

  lemma CellAfterRaised(row: map<nat, Cell>, i: nat, e: Event, p: Pricing, f: Field)
    ensures Parts(row[i := CellAfter(CellAt(row, i), e, p)], f) == Parts(row, f)[i := Get(Parts(row, f), i) + Part(Delta(e, p), f)]
  {
    EventAdds(NewWallet(""), CellAt(row, i), e, p, f);
    assert Part(NO_CELL, f) == 0;
  }

  lemma DaysAfterRaised(days: Days, i: nat, e: Event, p: Pricing, f: Field)
    ensures DayParts(DaysAfter(days, i, e, p), f) == Raised(DayParts(days, f), DayOf(e.at), i, Part(Delta(e, p), f))
  {
    var d := DayOf(e.at);
    var row := Row(days, d);
    var changed := row[i := CellAfter(CellAt(row, i), e, p)];
    CellAfterRaised(row, i, e, p, f);
    assert DayParts(days[d := changed], f) == DayParts(days, f)[d := Parts(changed, f)];
    assert d !in days ==> Parts(row, f) == map[];
  }

  lemma HoursAfterRaised(hours: Hours, i: nat, e: Event, p: Pricing, keep: Keep)
    requires NoNegativeHour(hours)
    ensures GridSum(HoursAfter(hours, i, e), keep) == GridSum(hours, keep) + (if keep(i) then Part(Delta(e, p), Trades) else 0)
    ensures NoNegativeHour(HoursAfter(hours, i, e))
  {
    if e.Fired? {
      assert HoursAfter(hours, i, e) == Raised(hours, HourOf(e.at), i, 1);
      RaisedSum(hours, HourOf(e.at), i, 1, keep);
    }
  }

  lemma CountedWallets(s: State, e: Event, p: Pricing, keep: Keep, f: Field)
    ensures WalletSum(Counted(s, e, p).wallets, keep, f)
         == WalletSum(s.wallets, keep, f) + (if keep(PlaceOf(s.wallets, e.user)) then Part(Delta(e, p), f) else 0)
  {
    var wallets, i := Listed(s.wallets, e.user), PlaceOf(s.wallets, e.user);
    WalletSumListed(s.wallets, e.user, keep, f);
    WalletSumUpdated(wallets, i, WalletAfter(wallets[i], e, p), keep, f);
    EventAdds(wallets[i], NO_CELL, e, p, f);
  }

  lemma CountedDays(s: State, e: Event, p: Pricing, keep: Keep, f: Field)
    ensures GridSum(DayParts(Counted(s, e, p).days, f), keep)
         == GridSum(DayParts(s.days, f), keep) + (if keep(PlaceOf(s.wallets, e.user)) then Part(Delta(e, p), f) else 0)
  {
    var i := PlaceOf(s.wallets, e.user);
    DaysAfterRaised(s.days, i, e, p, f);
    RaisedSum(DayParts(s.days, f), DayOf(e.at), i, Part(Delta(e, p), f), keep);
  }

  lemma CountedKeepsBalance(s: State, e: Event, p: Pricing, keep: Keep, f: Field)
    requires Balanced(s, keep, f) && NoNegativeHour(s.hours)
    ensures Balanced(Counted(s, e, p), keep, f) && NoNegativeHour(Counted(s, e, p).hours)
  {
    CountedWallets(s, e, p, keep, f);
    CountedWallets(s, e, p, keep, Trades);
    CountedDays(s, e, p, keep, f);
    HoursAfterRaised(s.hours, PlaceOf(s.wallets, e.user), e, p, keep);
  }

  lemma {:induction false} FoldedKeepsBalance(s: State, events: seq<Event>, p: Pricing, keep: Keep, f: Field)
    requires Balanced(s, keep, f) && NoNegativeHour(s.hours)
    ensures Balanced(Folded(s, events, p), keep, f) && NoNegativeHour(Folded(s, events, p).hours)
  {
    if events != [] {
      FoldedKeepsBalance(s, events[..|events| - 1], p, keep, f);
      CountedKeepsBalance(Folded(s, events[..|events| - 1], p), events[|events| - 1], p, keep, f);
    }
  }

  lemma {:induction false} WithUnknownSum(wallets: seq<Wallet>, addresses: seq<Address>, keep: Keep, f: Field)
    ensures WalletSum(WithUnknown(wallets, addresses), keep, f) == WalletSum(wallets, keep, f)
  {
    if addresses != [] {
      WithUnknownSum(wallets, addresses[..|addresses| - 1], keep, f);
      WalletSumListed(WithUnknown(wallets, addresses[..|addresses| - 1]), addresses[|addresses| - 1], keep, f);
    }
  }

  lemma {:induction false} SameTotalsSum(a: seq<Wallet>, b: seq<Wallet>, keep: Keep, f: Field)
    requires |a| == |b| && forall i :: 0 <= i < |a| ==> Totals(a[i]) == Totals(b[i])
    ensures WalletSum(a, keep, f) == WalletSum(b, keep, f)
  {
    if a != [] {
      SameTotalsSum(a[..|a| - 1], b[..|b| - 1], keep, f);
    }
  }

  lemma LiveKeepsBalance(s: State, addresses: seq<Address>, live: map<Address, Live>, keep: Keep, f: Field)
    requires Balanced(s, keep, f)
    ensures Balanced(AppliedLive(s, addresses, live), keep, f)
  {
    var wallets, t := WithUnknown(s.wallets, addresses), AppliedLive(s, addresses, live);
    WithUnknownSum(s.wallets, addresses, keep, f);
    WithUnknownSum(s.wallets, addresses, keep, Trades);
    SameTotalsSum(t.wallets, wallets, keep, f);
    SameTotalsSum(t.wallets, wallets, keep, Trades);
  }

  // ---- Every reachable state ----

  /** What a keeper run does to the state. */
  datatype Op = Batch(events: seq<Event>, pricing: Pricing, now: int) | Views(addresses: seq<Address>, live: map<Address, Live>)

  function Run(s: State, op: Op): State {
    match op
    case Batch(events, p, now) => Applied(s, events, p, now)
    case Views(addresses, live) => AppliedLive(s, addresses, live)
  }

  function Reached(ops: seq<Op>): State {
    if ops == [] then EMPTY else Run(Reached(ops[..|ops| - 1]), ops[|ops| - 1])
  }

  /** In every reachable state the days add up to the wallets, for any choice of wallets and any count. */
  lemma {:induction false} AlwaysBalanced(ops: seq<Op>, keep: Keep, f: Field)
    ensures Balanced(Reached(ops), keep, f) && NoNegativeHour(Reached(ops).hours)
  {
    if ops == [] {
      assert RowSums(DayParts(map[], f), keep) == map[] && RowSums(map[], keep) == map[];
    } else {
      var s := Reached(ops[..|ops| - 1]);
      AlwaysBalanced(ops[..|ops| - 1], keep, f);
      match ops[|ops| - 1]
      case Batch(events, p, now) =>
        FoldedKeepsBalance(s, events, p, keep, f);
        TrimmedSum(Folded(s, events, p).hours, Cutoff(now), keep);
      case Views(addresses, live) => LiveKeepsBalance(s, addresses, live, keep, f);
    }
  }

  // ---- What holds of each wallet ----

  predicate NoNegativeKind(kinds: map<string, int>) {
    forall k :: k in kinds ==> kinds[k] > 0
  }

  /** Its trades are those of its kinds, and its first save falls on a day that has a row. */
  ghost predicate WalletOk(w: Wallet, days: Days) {
    && MapSum(w.kinds) == w.trades && NoNegativeKind(w.kinds)
    && (w.lastTrade.Some? <==> w.trades > 0)
    && (w.firstSeen.Some? <==> w.sets > 0)
    && (w.firstSeen.Some? ==> DayOf(w.firstSeen.value) in days)
  }

  /** No row mentions a wallet that is not there. */
  ghost predicate RowsWithin(days: Days, hours: Hours, n: nat) {
    && (forall d, i :: d in days && i in days[d] ==> i < n)
    && (forall h, i :: h in hours && i in hours[h] ==> i < n)
  }

  /** One wallet per address, each as it should be. */
  ghost predicate WellKept(s: State) {
    && (forall i :: 0 <= i < |s.wallets| ==> WalletOk(s.wallets[i], s.days))
    && (forall i, j :: 0 <= i < j < |s.wallets| ==> s.wallets[i].address != s.wallets[j].address)
    && RowsWithin(s.days, s.hours, |s.wallets|)
  }

  lemma CountedRows(s: State, e: Event, p: Pricing)
    requires RowsWithin(s.days, s.hours, |s.wallets|)
    ensures RowsWithin(Counted(s, e, p).days, Counted(s, e, p).hours, |Counted(s, e, p).wallets|)
    ensures s.days.Keys <= Counted(s, e, p).days.Keys && DayOf(e.at) in Counted(s, e, p).days
  {
  }

  lemma {:induction false} NotListed(wallets: seq<Wallet>, a: Address)
    requires IndexOf(wallets, a).None?
    ensures forall i :: 0 <= i < |wallets| ==> wallets[i].address != a
  {
    if wallets != [] {
      NotListed(wallets[..|wallets| - 1], a);
    }
  }

  lemma CountedWalletOk(w: Wallet, e: Event, p: Pricing, days: Days, after: Days)
    requires WalletOk(w, days) && days.Keys <= after.Keys && DayOf(e.at) in after
    ensures WalletOk(WalletAfter(w, e, p), after)
  {
    if e.Fired? {
      MapSumUpdate(w.kinds, e.kind, Get(w.kinds, e.kind) + 1);
    }
  }

  lemma ListedKeeps(s: State, a: Address)
    requires WellKept(s)
    ensures WellKept(s.(wallets := Listed(s.wallets, a)))
  {
    var t := s.(wallets := Listed(s.wallets, a));
    if IndexOf(s.wallets, a).None? {
      NotListed(s.wallets, a);
      assert WalletOk(NewWallet(a), s.days);
    }
  }

  lemma CountedKeeps(s: State, e: Event, p: Pricing)
    requires WellKept(s)
    ensures WellKept(Counted(s, e, p))
  {
    var t, i := s.(wallets := Listed(s.wallets, e.user)), PlaceOf(s.wallets, e.user);
    ListedKeeps(s, e.user);
    CountedRows(s, e, p);
    var u := Counted(s, e, p);
    assert u.wallets == t.wallets[i := WalletAfter(t.wallets[i], e, p)];
    CountedWalletOk(t.wallets[i], e, p, s.days, u.days);
    forall j | 0 <= j < |u.wallets| ensures WalletOk(u.wallets[j], u.days) {
      if j != i {
        assert WalletOk(t.wallets[j], t.days);
      }
    }
  }

  lemma {:induction false} FoldedKeeps(s: State, events: seq<Event>, p: Pricing)
    requires WellKept(s)
    ensures WellKept(Folded(s, events, p))
  {
    if events != [] {
      FoldedKeeps(s, events[..|events| - 1], p);
      CountedKeeps(Folded(s, events[..|events| - 1], p), events[|events| - 1], p);
    }
  }

  lemma {:induction false} WithUnknownKeeps(s: State, addresses: seq<Address>)
    requires WellKept(s)
    ensures WellKept(s.(wallets := WithUnknown(s.wallets, addresses)))
  {
    if addresses != [] {
      WithUnknownKeeps(s, addresses[..|addresses| - 1]);
      ListedKeeps(s.(wallets := WithUnknown(s.wallets, addresses[..|addresses| - 1])), addresses[|addresses| - 1]);
    }
  }

  lemma LiveKeeps(s: State, addresses: seq<Address>, live: map<Address, Live>)
    requires WellKept(s)
    ensures WellKept(AppliedLive(s, addresses, live))
  {
    var t := s.(wallets := WithUnknown(s.wallets, addresses));
    WithUnknownKeeps(s, addresses);
    forall i | 0 <= i < |t.wallets| ensures WalletOk(AppliedLive(s, addresses, live).wallets[i], s.days) {
      assert WalletOk(t.wallets[i], t.days);
    }
  }

  /** In every reachable state each wallet is there once, with its kinds making up its trades. */
  lemma {:induction false} AlwaysWellKept(ops: seq<Op>)
    ensures WellKept(Reached(ops))
  {
    if ops != [] {
      var s := Reached(ops[..|ops| - 1]);
      AlwaysWellKept(ops[..|ops| - 1]);
      match ops[|ops| - 1]
      case Batch(events, p, now) => FoldedKeeps(s, events, p);
      case Views(addresses, live) => LiveKeeps(s, addresses, live);
    }
  }
}
