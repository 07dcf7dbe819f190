/**
  * Traction (packages/core/src/traction.ts): the router's events folded into per-wallet, per-day and per-hour counts. Times
  * are milliseconds, days are numbered, amounts of dollars are kept in whole cents, event ids are numbers in their order.
  */
module Traction {
  import opened Basics
  import Scoring

  const HOUR_MS := 3600000
  const DAY_MS := 24 * HOUR_MS
  const HOURS_KEPT := 7 * 24 + 1

  datatype Live = Live(autopilots: nat, rules: nat)

  const NOT_LIVE := Live(0, 0)

  datatype Wallet = Wallet(
    address: Address, firstSeen: Option<int>, lastTrade: Option<int>, lastTx: string,
    trades: nat, swaps: nat, volume: int, volumeOut: int, sets: nat, clears: nat,
    ids: seq<int>, kinds: map<string, int>, tokens: seq<string>, live: Live)

  function NewWallet(address: Address): Wallet {
    Wallet(address, None, None, "", 0, 0, 0, 0, 0, 0, [], map[], [], NOT_LIVE)
  }

  /** One wallet's day. */
  datatype Cell = Cell(fired: nat, swaps: nat, volume: int, sets: nat, clears: nat, volumeOut: int)

  const NO_CELL := Cell(0, 0, 0, 0, 0, 0)

  type Days = map<int, map<nat, Cell>>
  type Hours = map<int, map<nat, int>>

  datatype State = State(lastEventId: Option<int>, wallets: seq<Wallet>, days: Days, hours: Hours, unpriced: nat)

  const EMPTY := State(None, [], map[], map[], 0)

  datatype Event =
    | AutopilotSet(id: int, at: int, user: Address, autopilotId: int)
    | AutopilotCleared(id: int, at: int, user: Address)
    | Fired(id: int, at: int, user: Address, kind: string, tx: string)
    | Swapped(id: int, at: int, user: Address, tokenIn: Address, tokenOut: Address, amountIn: int, amountOut: int)

  // ---- Money ----

  datatype Known = Known(symbol: string, token: Scoring.Token)

  /** The tokens the build knows and the prices of the run. */
  datatype Pricing = Pricing(known: map<Address, Known>, prices: map<string, real>)

  function TokenSymbol(id: Address, p: Pricing): string {
    if id in p.known then p.known[id].symbol else id
  }

  function SwapUsd(token: Address, amount: int, p: Pricing): Option<real> {
    if token !in p.known then None
    else
      match Scoring.PriceOf(p.known[token].token, p.prices)
      case None => None
      case Some(price) => Some(amount as real / Scoring.Scale(p.known[token].token.decimals) * price)
  }

  function OrZero(usd: Option<real>): real {
    if usd.Some? then usd.value else 0.0
  }

  /** Dollars to whole cents, halves up. */
  function Cents(usd: real): int {
    (usd * 100.0 + 0.5).Floor
  }

  /** A volume in cents after one more amount, rounded again as a whole. */
  function Grown(volume: int, usd: real): int {
    Cents(volume as real / 100.0 + usd)
  }

  /** Rounding the running total is rounding each amount: no drift builds up. */
  lemma GrownAdds(volume: int, usd: real)
    ensures Grown(volume, usd) == volume + Cents(usd)
  {
    var x := usd * 100.0 + 0.5;
    assert (volume as real / 100.0 + usd) * 100.0 + 0.5 == volume as real + x;
    assert (volume as real + x).Floor == volume + x.Floor;
  }

  // ---- One event ----

  function DayOf(at: int): int {
    at / DAY_MS
  }

  function HourOf(at: int): int {
    at / HOUR_MS * HOUR_MS
  }

  /** The wallet's place in the list; a list kept by address finds the last one. */
  function IndexOf(wallets: seq<Wallet>, address: Address): (r: Option<nat>)
    ensures r.Some? ==> r.value < |wallets| && wallets[r.value].address == address
  {
    if wallets == [] then None
    else if wallets[|wallets| - 1].address == address then Some(|wallets| - 1)
    else IndexOf(wallets[..|wallets| - 1], address)
  }

  function Listed(wallets: seq<Wallet>, address: Address): seq<Wallet> {
    if IndexOf(wallets, address).Some? then wallets else wallets + [NewWallet(address)]
  }

  function PlaceOf(wallets: seq<Wallet>, address: Address): (i: nat)
    ensures i < |Listed(wallets, address)| && Listed(wallets, address)[i].address == address
  {
    match IndexOf(wallets, address)
    case Some(i) => i
    case None => |wallets|
  }

  function AddOnce<T(==)>(xs: seq<T>, x: T): seq<T> {
    if x in xs then xs else xs + [x]
  }

  function Bump<K>(m: map<K, int>, k: K): map<K, int> {
    m[k := (if k in m then m[k] else 0) + 1]
  }

  function Min(a: int, b: int): int {
    if a < b then a else b
  }

  function Max(a: int, b: int): int {
    if a < b then b else a
  }

  function WalletAfter(w: Wallet, e: Event, p: Pricing): Wallet {
    match e
    case AutopilotSet(_, at, _, id) =>
      w.(sets := w.sets + 1, firstSeen := Some(if w.firstSeen.None? then at else Min(w.firstSeen.value, at)), ids := AddOnce(w.ids, id))
    case AutopilotCleared(_, _, _) => w.(clears := w.clears + 1)
    case Fired(_, at, _, kind, tx) =>
      var last := if w.lastTrade.None? then 0 else w.lastTrade.value;
      w.(trades := w.trades + 1, kinds := Bump(w.kinds, kind), lastTx := if tx != "" && at >= last then tx else w.lastTx, lastTrade := Some(Max(last, at)))
    case Swapped(_, _, _, tokenIn, tokenOut, amountIn, amountOut) =>
      w.(swaps := w.swaps + 1,
      volume := Grown(w.volume, OrZero(SwapUsd(tokenIn, amountIn, p))),
      volumeOut := Grown(w.volumeOut, OrZero(SwapUsd(tokenOut, amountOut, p))),
      tokens := AddOnce(AddOnce(w.tokens, TokenSymbol(tokenIn, p)), TokenSymbol(tokenOut, p)))
  }

  function CellAfter(c: Cell, e: Event, p: Pricing): Cell {
    match e
    case AutopilotSet(_, _, _, _) => c.(sets := c.sets + 1)
    case AutopilotCleared(_, _, _) => c.(clears := c.clears + 1)
    case Fired(_, _, _, _, _) => c.(fired := c.fired + 1)
    case Swapped(_, _, _, tokenIn, tokenOut, amountIn, amountOut) =>
      c.(swaps := c.swaps + 1,
      volume := Grown(c.volume, OrZero(SwapUsd(tokenIn, amountIn, p))),
      volumeOut := Grown(c.volumeOut, OrZero(SwapUsd(tokenOut, amountOut, p))))
  }

  function Row<K, V>(rows: map<K, map<nat, V>>, k: K): map<nat, V> {
    if k in rows then rows[k] else map[]
  }

  function CellAt(row: map<nat, Cell>, i: nat): Cell {
    if i in row then row[i] else NO_CELL
  }

  function FiredAt(row: map<nat, int>, i: nat): int {
    if i in row then row[i] else 0
  }

  function DaysAfter(days: Days, i: nat, e: Event, p: Pricing): Days {
    var row := Row(days, DayOf(e.at));
    days[DayOf(e.at) := row[i := CellAfter(CellAt(row, i), e, p)]]
  }

  function HoursAfter(hours: Hours, i: nat, e: Event): Hours {
    if !e.Fired? then hours
    else
      var row := Row(hours, HourOf(e.at));
      hours[HourOf(e.at) := row[i := FiredAt(row, i) + 1]]
  }

  function Unpriced(e: Event, p: Pricing): nat {
    if e.Swapped? && SwapUsd(e.tokenIn, e.amountIn, p).None? then 1 else 0
  }

  /** The state with one more event counted. */
  function Counted(s: State, e: Event, p: Pricing): State {
    var wallets, i := Listed(s.wallets, e.user), PlaceOf(s.wallets, e.user);
    State(Some(e.id), wallets[i := WalletAfter(wallets[i], e, p)], DaysAfter(s.days, i, e, p), HoursAfter(s.hours, i, e), s.unpriced + Unpriced(e, p))
  }

  predicate AlreadyCounted(s: State, e: Event) {
    s.lastEventId.Some? && e.id <= s.lastEventId.value
  }

  // ---- A run ----

  function Step(s: State, e: Event, p: Pricing): State {
    if AlreadyCounted(s, e) then s else Counted(s, e, p)
  }

  function Folded(s: State, events: seq<Event>, p: Pricing): State {
    if events == [] then s else Step(Folded(s, events[..|events| - 1], p), events[|events| - 1], p)
  }

  function Cutoff(now: int): int {
    now - HOURS_KEPT * HOUR_MS
  }

  function TrimHours(hours: Hours, cutoff: int): Hours {
    map h | h in hours && h >= cutoff :: hours[h]
  }

  function Trim(s: State, now: int): State {
    s.(hours := TrimHours(s.hours, Cutoff(now)))
  }

  function Applied(s: State, events: seq<Event>, p: Pricing, now: int): State {
    Trim(Folded(s, events, p), now)
  }

  // ---- The loop ----

  /** The address index the run builds and keeps. */
  ghost predicate Indexes(index: map<Address, nat>, wallets: seq<Wallet>) {
    forall a :: (a in index <==> IndexOf(wallets, a).Some?) && (a in index ==> IndexOf(wallets, a) == Some(index[a]))
  }

  lemma IndexAppended(index: map<Address, nat>, wallets: seq<Wallet>, w: Wallet)
    requires Indexes(index, wallets)
    ensures Indexes(index[w.address := |wallets|], wallets + [w])
  {
    assert (wallets + [w])[..|wallets|] == wallets;
  }

  lemma {:induction false} IndexOfUpdated(wallets: seq<Wallet>, i: nat, w: Wallet, a: Address)
    requires i < |wallets| && w.address == wallets[i].address
    ensures IndexOf(wallets[i := w], a) == IndexOf(wallets, a)
  {
    if i < |wallets| - 1 {
      assert wallets[i := w][..|wallets| - 1] == wallets[..|wallets| - 1][i := w];
      IndexOfUpdated(wallets[..|wallets| - 1], i, w, a);
    } else {
      assert wallets[i := w][..|wallets| - 1] == wallets[..|wallets| - 1];
    }
  }

  lemma IndexUpdated(index: map<Address, nat>, wallets: seq<Wallet>, i: nat, w: Wallet)
    requires Indexes(index, wallets) && i < |wallets| && w.address == wallets[i].address
    ensures Indexes(index, wallets[i := w])
  {
    forall a ensures IndexOf(wallets[i := w], a) == IndexOf(wallets, a) {
      IndexOfUpdated(wallets, i, w, a);
    }
  }

  method BuildIndex(wallets: seq<Wallet>) returns (index: map<Address, nat>)
    ensures Indexes(index, wallets)
  {
    index := map[];
    for i := 0 to |wallets|
      invariant Indexes(index, wallets[..i])
    {
      assert wallets[..i + 1] == wallets[..i] + [wallets[i]];
      IndexAppended(index, wallets[..i], wallets[i]);
      index := index[wallets[i].address := i];
    }
    assert wallets[..|wallets|] == wallets;
  }

  /** Counts one event into the wallet and the day cell it belongs to. */
  method CountInto(w0: Wallet, cell0: Cell, e: Event, p: Pricing) returns (w: Wallet, cell: Cell)
    ensures w == WalletAfter(w0, e, p) && cell == CellAfter(cell0, e, p)
  {
    w, cell := w0, cell0;
    match e
    case AutopilotSet(_, at, _, id) =>
      w := w.(sets := w.sets + 1);
      cell := cell.(sets := cell.sets + 1);
      w := w.(firstSeen := Some(if w.firstSeen.None? then at else Min(w.firstSeen.value, at)));
      if id !in w.ids { w := w.(ids := w.ids + [id]); }
    case AutopilotCleared(_, _, _) =>
      w := w.(clears := w.clears + 1);
      cell := cell.(clears := cell.clears + 1);
    case Fired(_, at, _, kind, tx) =>
      w := w.(trades := w.trades + 1);
      cell := cell.(fired := cell.fired + 1);
      w := w.(kinds := w.kinds[kind := (if kind in w.kinds then w.kinds[kind] else 0) + 1]);
      var last := if w.lastTrade.None? then 0 else w.lastTrade.value;
      if tx != "" && at >= last { w := w.(lastTx := tx); }
      w := w.(lastTrade := Some(Max(last, at)));
    case Swapped(_, _, _, tokenIn, tokenOut, amountIn, amountOut) =>
      var usd, out := OrZero(SwapUsd(tokenIn, amountIn, p)), OrZero(SwapUsd(tokenOut, amountOut, p));
      w := w.(swaps := w.swaps + 1);
      cell := cell.(swaps := cell.swaps + 1);
      w := w.(volume := Grown(w.volume, usd));
      w := w.(volumeOut := Grown(w.volumeOut, out));
      cell := cell.(volume := Grown(cell.volume, usd));
      cell := cell.(volumeOut := Grown(cell.volumeOut, out));
      if TokenSymbol(tokenIn, p) !in w.tokens { w := w.(tokens := w.tokens + [TokenSymbol(tokenIn, p)]); }
      if TokenSymbol(tokenOut, p) !in w.tokens { w := w.(tokens := w.tokens + [TokenSymbol(tokenOut, p)]); }
  }

  method WalletOf(wallets0: seq<Wallet>, index0: map<Address, nat>, address: Address) returns (wallets: seq<Wallet>, index: map<Address, nat>, i: nat)
    requires Indexes(index0, wallets0)
    ensures wallets == Listed(wallets0, address) && i == PlaceOf(wallets0, address) && i < |wallets|
    ensures Indexes(index, wallets)
  {
    wallets, index := wallets0, index0;
    if address !in index {
      IndexAppended(index, wallets, NewWallet(address));
      index := index[address := |wallets|];
      wallets := wallets + [NewWallet(address)];
    }
    i := index[address];
  }

  method CountHour(hours0: Hours, i: nat, e: Event) returns (hours: Hours)
    ensures hours == HoursAfter(hours0, i, e)
  {
    hours := hours0;
    if e.Fired? {
      var hour := Row(hours, HourOf(e.at));
      hours := hours[HourOf(e.at) := hour[i := FiredAt(hour, i) + 1]];
    }
  }

  method CountEvent(s0: State, index0: map<Address, nat>, e: Event, p: Pricing) returns (s: State, index: map<Address, nat>)
    requires Indexes(index0, s0.wallets)
    ensures s == Counted(s0, e, p) && Indexes(index, s.wallets)
  {
    var wallets, i;
    wallets, index, i := WalletOf(s0.wallets, index0, e.user);
    var row := Row(s0.days, DayOf(e.at));
    var w, cell := CountInto(wallets[i], CellAt(row, i), e, p);
    var hours := CountHour(s0.hours, i, e);
    assert w.address == wallets[i].address;
    IndexUpdated(index, wallets, i, w);
    s := State(Some(e.id), wallets[i := w], s0.days[DayOf(e.at) := row[i := cell]], hours, s0.unpriced + Unpriced(e, p));
  }

  /** The state after a batch of events read at `now`. */
  method ApplyEvents(prev: State, events: seq<Event>, p: Pricing, now: int) returns (s: State)
    ensures s == Applied(prev, events, p, now)
  {
    s := prev;
    var index := BuildIndex(s.wallets);
    for k := 0 to |events|
      invariant s == Folded(prev, events[..k], p)
      invariant Indexes(index, s.wallets)
    {
      var e := events[k];
      assert events[..k + 1][..k] == events[..k];
      if !AlreadyCounted(s, e) {
        s, index := CountEvent(s, index, e, p);
      }
    }
    assert events[..|events|] == events;
    s := s.(hours := map h | h in s.hours && h >= Cutoff(now) :: s.hours[h]);
  }

  // ---- Live counts ----

  function LiveOf(live: map<Address, Live>, a: Address): Live {
    if a in live then live[a] else NOT_LIVE
  }

  /** The wallets with a new one for each address that none of them has. */
  function WithUnknown(wallets: seq<Wallet>, addresses: seq<Address>): seq<Wallet> {
    if addresses == [] then wallets else Listed(WithUnknown(wallets, addresses[..|addresses| - 1]), addresses[|addresses| - 1])
  }

  function Relived(w: Wallet, live: map<Address, Live>): Wallet {
    w.(live := LiveOf(live, w.address))
  }

  function AppliedLive(s: State, addresses: seq<Address>, live: map<Address, Live>): State {
    var wallets := WithUnknown(s.wallets, addresses);
    s.(wallets := seq(|wallets|, i requires 0 <= i < |wallets| => Relived(wallets[i], live)))
  }

  /** Sets every wallet's live counts from the views; `addresses` are the keys of `live`, each once. */
  method ApplyLive(prev: State, addresses: seq<Address>, live: map<Address, Live>) returns (s: State)
    requires forall i, j :: 0 <= i < j < |addresses| ==> addresses[i] != addresses[j]
    ensures s == AppliedLive(prev, addresses, live)
  {
    var index := BuildIndex(prev.wallets);
    var wallets := prev.wallets;
    for k := 0 to |addresses|
      invariant wallets == WithUnknown(prev.wallets, addresses[..k])
      invariant forall i :: k <= i < |addresses| ==> (IndexOf(wallets, addresses[i]).Some? <==> addresses[i] in index)
    {
      assert addresses[..k + 1][..k] == addresses[..k];
      if addresses[k] !in index {
        assert (wallets + [NewWallet(addresses[k])])[..|wallets|] == wallets;
        wallets := wallets + [NewWallet(addresses[k])];
      }
    }
    assert addresses[..|addresses|] == addresses;
    ghost var all := wallets;
    for k := 0 to |wallets|
      invariant |wallets| == |all|
      invariant forall i :: 0 <= i < k ==> wallets[i] == Relived(all[i], live)
      invariant forall i :: k <= i < |all| ==> wallets[i] == all[i]
    {
      wallets := wallets[k := Relived(wallets[k], live)];
    }
    s := prev.(wallets := wallets);
  }
}
