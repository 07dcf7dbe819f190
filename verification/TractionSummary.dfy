/** What the traction page shows of a state (packages/core/src/traction.ts:228-389): headline counts per group and the daily series. */
module TractionSummary {
  import opened Basics
  import opened Sums
  import opened Traction
  import opened TractionTotals

  // ---- Groups ----

  datatype Group = Organic | Team | LoadTest

  const LOAD_TEST_FROM := 1793196000000
  const LOAD_TEST_TO := 1793203200000
  const TEAM_WALLETS: set<Address> := {
    "CAVKIFUHM6AOSVEGTSG2V7KEOMDH2Q54F4IAY6ZEKRIDJZ7BBV3PYSBG",
    "CALZD4CAUC2QVPL274YPHPCUYX676C3YIE3ERNDEUTKTOYQ5EAJ65E5J",
    "CAHJNL2VE5S7G5KXOB4666W33YPUOZKIK7GERXVBQY7CWX5Z6XFULVVH"
  }

  predicate IsLoadTest(w: Wallet) {
    && w.firstSeen.Some? && LOAD_TEST_FROM <= w.firstSeen.value < LOAD_TEST_TO && w.trades > 0
    && (forall k :: k in w.kinds ==> k == "swap")
    && (forall t :: t in w.tokens ==> t == "USDC" || t == "ETH")
  }

  function GroupOf(w: Wallet, team: set<Address>): Group {
    if w.address in team || w.address in TEAM_WALLETS then Team else if IsLoadTest(w) then LoadTest else Organic
  }

  function Groups(wallets: seq<Wallet>, team: set<Address>): seq<Group> {
    seq(|wallets|, i requires 0 <= i < |wallets| => GroupOf(wallets[i], team))
  }

  const EVERYONE: set<Group> := {Organic, Team, LoadTest}
  const ORGANIC: set<Group> := {Organic}
  const NOT_ORGANIC: set<Group> := {Team, LoadTest}

  /** The wallets in the chosen groups; a place without a wallet counts as organic. */
  function Chosen(groups: seq<Group>, chosen: set<Group>): Keep {
    (i: nat) => (if i < |groups| then groups[i] else Organic) in chosen
  }

  // ---- Headline counts ----

  datatype Counts = Counts(users: int, autopilots: int, rules: int, usersEver: int, trades24h: int, trades7d: int,
                           trades: int, swaps: int, volume: int, volumeOut: int, autopilotsEver: int, kinds: map<string, int>)

  const ZERO := Counts(0, 0, 0, 0, 0, 0, 0, 0, 0, 0, 0, map[])

  /** The counts that add up over wallets. */
  datatype Stat = UsersNow | AutopilotsNow | RulesNow | UsersEver | OfTrades | OfSwaps | OfVolume | OfVolumeOut | AutopilotsEver | OfKind(kind: string)

  function CountPart(c: Counts, stat: Stat): int {
    match stat
    case UsersNow => c.users
    case AutopilotsNow => c.autopilots
    case RulesNow => c.rules
    case UsersEver => c.usersEver
    case OfTrades => c.trades
    case OfSwaps => c.swaps
    case OfVolume => c.volume
    case OfVolumeOut => c.volumeOut
    case AutopilotsEver => c.autopilotsEver
    case OfKind(kind) => Get(c.kinds, kind)
  }

  function WalletStat(w: Wallet, stat: Stat): int {
    match stat
    case UsersNow => if w.live.autopilots > 0 then 1 else 0
    case AutopilotsNow => w.live.autopilots
    case RulesNow => w.live.rules
    case UsersEver => if w.firstSeen.Some? || w.sets > 0 then 1 else 0
    case OfTrades => w.trades
    case OfSwaps => w.swaps
    case OfVolume => w.volume
    case OfVolumeOut => w.volumeOut
    case AutopilotsEver => |w.ids|
    case OfKind(kind) => Get(w.kinds, kind)
  }

  function StatSum(wallets: seq<Wallet>, keep: Keep, stat: Stat): int {
    if wallets == [] then 0
    else StatSum(wallets[..|wallets| - 1], keep, stat) + (if keep(|wallets| - 1) then WalletStat(wallets[|wallets| - 1], stat) else 0)
  }

  ghost predicate SumsOver(c: Counts, wallets: seq<Wallet>, keep: Keep) {
    forall stat: Stat :: CountPart(c, stat) == StatSum(wallets, keep, stat)
  }

  function AddKinds(a: map<string, int>, b: map<string, int>): map<string, int> {
    map kind | kind in a.Keys + b.Keys :: Get(a, kind) + Get(b, kind)
  }

  function AddWallet(c: Counts, w: Wallet): Counts {
    c.(users := if w.live.autopilots > 0 then c.users + 1 else c.users, autopilots := c.autopilots + w.live.autopilots, rules := c.rules + w.live.rules,
    usersEver := if w.firstSeen.Some? || w.sets > 0 then c.usersEver + 1 else c.usersEver,
    trades := c.trades + w.trades, swaps := c.swaps + w.swaps, volume := c.volume + w.volume, volumeOut := c.volumeOut + w.volumeOut,
    autopilotsEver := c.autopilotsEver + |w.ids|, kinds := AddKinds(c.kinds, w.kinds))
  }

  /** Hours younger than `span`. */
  function Recent(hours: Hours, now: int, span: int): Hours {
    map h | h in hours && now - h < span :: hours[h]
  }

  /** The headline of a choice of wallets: sums over them, and the trades of their recent hours. */
  ghost predicate CountsAre(c: Counts, s: State, keep: Keep, now: int) {
    && SumsOver(c, s.wallets, keep)
    && c.trades24h == GridSum(Recent(s.hours, now, DAY_MS), keep)
    && c.trades7d == GridSum(Recent(s.hours, now, 7 * DAY_MS), keep)
  }

  lemma SomeKey<K, V>(m: map<K, V>) returns (k: K)
    requires m != map[]
    ensures k in m
  {
    k :| k in m;
  }

  method SumRow(row: map<nat, int>, keep: Keep) returns (sum: int)
    ensures sum == RowSum(row, keep)
  {
    sum := 0;
    var left := row;
    assert Kept(map[], keep) == map[];
    while left != map[]
      invariant sum == RowSum(row, keep) - RowSum(left, keep)
      decreases |left|
    {
      var i :| i in left;
      if keep(i) {
        MapSumTake(Kept(left, keep), i);
        assert Kept(left - {i}, keep) == Kept(left, keep) - {i};
        sum := sum + left[i];
      } else {
        assert Kept(left - {i}, keep) == Kept(left, keep);
      }
      left := left - {i};
    }
  }

  method SumHours(hours: Hours, keep: Keep, now: int) returns (day: int, week: int)
    ensures day == GridSum(Recent(hours, now, DAY_MS), keep)
    ensures week == GridSum(Recent(hours, now, 7 * DAY_MS), keep)
  {
    day, week := 0, 0;
    var left := hours;
    assert RowSums(Recent(map[], now, DAY_MS), keep) == map[] && RowSums(Recent(map[], now, 7 * DAY_MS), keep) == map[];
    while left != map[]
      invariant day == GridSum(Recent(hours, now, DAY_MS), keep) - GridSum(Recent(left, now, DAY_MS), keep)
      invariant week == GridSum(Recent(hours, now, 7 * DAY_MS), keep) - GridSum(Recent(left, now, 7 * DAY_MS), keep)
      decreases |left|
    {
      var h :| h in left;
      var n := SumRow(left[h], keep);
      RecentWithout(left, h, now, DAY_MS, keep);
      RecentWithout(left, h, now, 7 * DAY_MS, keep);
      if now - h < DAY_MS { day := day + n; }
      if now - h < 7 * DAY_MS { week := week + n; }
      left := left - {h};
    }
  }

  lemma RecentWithout(hours: Hours, h: int, now: int, span: int, keep: Keep)
    requires h in hours
    ensures GridSum(Recent(hours, now, span), keep)
         == GridSum(Recent(hours - {h}, now, span), keep) + (if now - h < span then RowSum(hours[h], keep) else 0)
  {
    var all := RowSums(Recent(hours, now, span), keep);
    if now - h < span {
      MapSumTake(all, h);
      assert RowSums(Recent(hours - {h}, now, span), keep) == all - {h};
    } else {
      assert Recent(hours - {h}, now, span) == Recent(hours, now, span);
    }
  }

  lemma OneMoreWallet(c: Counts, wallets: seq<Wallet>, i: nat, keep: Keep)
    requires i < |wallets| && SumsOver(c, wallets[..i], keep)
    ensures SumsOver(if keep(i) then AddWallet(c, wallets[i]) else c, wallets[..i + 1], keep)
  {
    assert wallets[..i + 1][..i] == wallets[..i];
    var next := if keep(i) then AddWallet(c, wallets[i]) else c;
    forall stat: Stat ensures CountPart(next, stat) == StatSum(wallets[..i + 1], keep, stat) {
      assert CountPart(c, stat) == StatSum(wallets[..i], keep, stat);
    }
  }

  method CountWallets(wallets: seq<Wallet>, groups: seq<Group>) returns (all: Counts, organic: Counts, others: Counts)
    requires |groups| == |wallets|
    ensures SumsOver(all, wallets, Chosen(groups, EVERYONE)) && all.trades24h == all.trades7d == 0
    ensures SumsOver(organic, wallets, Chosen(groups, ORGANIC)) && organic.trades24h == organic.trades7d == 0
    ensures SumsOver(others, wallets, Chosen(groups, NOT_ORGANIC)) && others.trades24h == others.trades7d == 0
  {
    all, organic, others := ZERO, ZERO, ZERO;
    for i := 0 to |wallets|
      invariant SumsOver(all, wallets[..i], Chosen(groups, EVERYONE)) && all.trades24h == all.trades7d == 0
      invariant SumsOver(organic, wallets[..i], Chosen(groups, ORGANIC)) && organic.trades24h == organic.trades7d == 0
      invariant SumsOver(others, wallets[..i], Chosen(groups, NOT_ORGANIC)) && others.trades24h == others.trades7d == 0
    {
      var w := wallets[i];
      OneMoreWallet(all, wallets, i, Chosen(groups, EVERYONE));
      OneMoreWallet(organic, wallets, i, Chosen(groups, ORGANIC));
      OneMoreWallet(others, wallets, i, Chosen(groups, NOT_ORGANIC));
      if groups[i] == Organic { organic := AddWallet(organic, w); } else { others := AddWallet(others, w); }
      all := AddWallet(all, w);
    }
    assert wallets[..|wallets|] == wallets;
  }

  lemma WithRecent(c: Counts, s: State, keep: Keep, now: int)
    requires SumsOver(c, s.wallets, keep)
    ensures CountsAre(c.(trades24h := GridSum(Recent(s.hours, now, DAY_MS), keep), trades7d := GridSum(Recent(s.hours, now, 7 * DAY_MS), keep)), s, keep, now)
  {
    var d := c.(trades24h := GridSum(Recent(s.hours, now, DAY_MS), keep), trades7d := GridSum(Recent(s.hours, now, 7 * DAY_MS), keep));
    forall stat: Stat ensures CountPart(d, stat) == StatSum(s.wallets, keep, stat) {
      assert CountPart(c, stat) == StatSum(s.wallets, keep, stat);
    }
  }

  /** The headline: everyone, the organic wallets, and the team's with the load test's. */
  method Headline(s: State, team: set<Address>, now: int) returns (all: Counts, organic: Counts, others: Counts)
    ensures CountsAre(all, s, Chosen(Groups(s.wallets, team), EVERYONE), now)
    ensures CountsAre(organic, s, Chosen(Groups(s.wallets, team), ORGANIC), now)
    ensures CountsAre(others, s, Chosen(Groups(s.wallets, team), NOT_ORGANIC), now)
  {
    var groups := Groups(s.wallets, team);
    all, organic, others := CountWallets(s.wallets, groups);
    WithRecent(all, s, Chosen(groups, EVERYONE), now);
    WithRecent(organic, s, Chosen(groups, ORGANIC), now);
    WithRecent(others, s, Chosen(groups, NOT_ORGANIC), now);
    var day, week := SumHours(s.hours, Chosen(groups, EVERYONE), now);
    all := all.(trades24h := day, trades7d := week);
    day, week := SumHours(s.hours, Chosen(groups, ORGANIC), now);
    organic := organic.(trades24h := day, trades7d := week);
    day, week := SumHours(s.hours, Chosen(groups, NOT_ORGANIC), now);
    others := others.(trades24h := day, trades7d := week);
  }

  // ---- The two sides make the whole ----

  /** Every place is in exactly one of two choices. */
  ghost predicate Splits(whole: Keep, a: Keep, b: Keep) {
    forall i: nat :: (whole(i) <==> a(i) || b(i)) && !(a(i) && b(i))
  }

  lemma {:induction false} MapSumSplits(row: map<nat, int>, whole: Keep, a: Keep, b: Keep)
    requires Splits(whole, a, b)
    ensures RowSum(row, whole) == RowSum(row, a) + RowSum(row, b)
    decreases |row|
  {
    if row == map[] {
      assert Kept(row, whole) == map[] && Kept(row, a) == map[] && Kept(row, b) == map[];
    } else {
      var i :| i in row;
      MapSumSplits(row - {i}, whole, a, b);
      KeptWithout(row, i, whole);
      KeptWithout(row, i, a);
      KeptWithout(row, i, b);
    }
  }

  lemma KeptWithout(row: map<nat, int>, i: nat, keep: Keep)
    requires i in row
    ensures RowSum(row, keep) == RowSum(row - {i}, keep) + (if keep(i) then row[i] else 0)
  {
    if keep(i) {
      MapSumTake(Kept(row, keep), i);
      assert Kept(row - {i}, keep) == Kept(row, keep) - {i};
    } else {
      assert Kept(row - {i}, keep) == Kept(row, keep);
    }
  }

  lemma {:induction false} GridSumSplits(rows: map<int, map<nat, int>>, whole: Keep, a: Keep, b: Keep)
    requires Splits(whole, a, b)
    ensures GridSum(rows, whole) == GridSum(rows, a) + GridSum(rows, b)
    decreases |rows|
  {
    if rows == map[] {
      assert RowSums(rows, whole) == map[] && RowSums(rows, a) == map[] && RowSums(rows, b) == map[];
    } else {
      var k := SomeKey(rows);
      GridSumSplits(rows - {k}, whole, a, b);
      GridWithout(rows, k, whole);
      GridWithout(rows, k, a);
      GridWithout(rows, k, b);
      MapSumSplits(rows[k], whole, a, b);
    }
  }

  lemma GridWithout(rows: map<int, map<nat, int>>, k: int, keep: Keep)
    requires k in rows
    ensures GridSum(rows, keep) == GridSum(rows - {k}, keep) + RowSum(rows[k], keep)
  {
    MapSumTake(RowSums(rows, keep), k);
    assert RowSums(rows - {k}, keep) == RowSums(rows, keep) - {k};
  }

  lemma {:induction false} StatSumSplits(wallets: seq<Wallet>, whole: Keep, a: Keep, b: Keep, stat: Stat)
    requires Splits(whole, a, b)
    ensures StatSum(wallets, whole, stat) == StatSum(wallets, a, stat) + StatSum(wallets, b, stat)
  {
    if wallets != [] {
      StatSumSplits(wallets[..|wallets| - 1], whole, a, b, stat);
    }
  }

  lemma SidesSplit(groups: seq<Group>)
    ensures Splits(Chosen(groups, EVERYONE), Chosen(groups, ORGANIC), Chosen(groups, NOT_ORGANIC))
  {
  }

  /** Whoever is tagged as team, everyone's counts are the organic ones plus the others'. */
  lemma AllIsOrganicAndTeam(s: State, groups: seq<Group>, now: int, all: Counts, organic: Counts, others: Counts, stat: Stat)
    requires CountsAre(all, s, Chosen(groups, EVERYONE), now)
    requires CountsAre(organic, s, Chosen(groups, ORGANIC), now)
    requires CountsAre(others, s, Chosen(groups, NOT_ORGANIC), now)
    ensures CountPart(all, stat) == CountPart(organic, stat) + CountPart(others, stat)
    ensures all.trades24h == organic.trades24h + others.trades24h
    ensures all.trades7d == organic.trades7d + others.trades7d
  {
    var whole, a, b := Chosen(groups, EVERYONE), Chosen(groups, ORGANIC), Chosen(groups, NOT_ORGANIC);
    SidesSplit(groups);
    StatSumSplits(s.wallets, whole, a, b, stat);
    GridSumSplits(Recent(s.hours, now, DAY_MS), whole, a, b);
    GridSumSplits(Recent(s.hours, now, 7 * DAY_MS), whole, a, b);
  }

  // ---- Recent trades ----

  lemma GridSumPart(rows: map<int, map<nat, int>>, part: map<int, map<nat, int>>, keep: Keep)
    requires NoNegativeHour(rows) && forall k :: k in part ==> k in rows && rows[k] == part[k]
    ensures 0 <= GridSum(part, keep) <= GridSum(rows, keep)
  {
    forall h | h in rows ensures RowSum(rows[h], keep) >= 0 {
      MapSumNonNegative(Kept(rows[h], keep));
    }
    forall k | k in RowSums(part, keep) ensures k in RowSums(rows, keep) && RowSums(rows, keep)[k] == RowSums(part, keep)[k] {
      assert k in part;
    }
    MapSumPart(RowSums(rows, keep), RowSums(part, keep));
  }

  lemma {:induction false} TradesOfWallets(wallets: seq<Wallet>, keep: Keep)
    ensures StatSum(wallets, keep, OfTrades) == WalletSum(wallets, keep, Trades)
  {
    if wallets != [] {
      TradesOfWallets(wallets[..|wallets| - 1], keep);
    }
  }

  /** In every reachable state, for any choice of wallets: the last day's trades are among the week's, and those among all. */
  lemma RecentTradesAreTrades(ops: seq<Op>, keep: Keep, now: int, c: Counts)
    requires CountsAre(c, Reached(ops), keep, now)
    ensures 0 <= c.trades24h <= c.trades7d <= c.trades
  {
    var s := Reached(ops);
    AlwaysBalanced(ops, keep, Trades);
    TradesOfWallets(s.wallets, keep);
    assert CountPart(c, OfTrades) == StatSum(s.wallets, keep, OfTrades);
    GridSumPart(s.hours, Recent(s.hours, now, 7 * DAY_MS), keep);
    GridSumPart(Recent(s.hours, now, 7 * DAY_MS), Recent(s.hours, now, DAY_MS), keep);
  }

  // ---- The daily series ----

  datatype DayRow = DayRow(day: int, newUsers: nat, cumulativeUsers: nat, fired: int, swaps: int, volume: int, sets: int, clears: int, volumeOut: int, active: int)

  function DayPart(r: DayRow, f: Field): int {
    match f
    case Trades => r.fired
    case Swaps => r.swaps
    case Volume => r.volume
    case Sets => r.sets
    case Clears => r.clears
    case VolumeOut => r.volumeOut
  }

  function Active(row: map<nat, Cell>): map<nat, int> {
    map i | i in row :: if row[i].fired > 0 then 1 else 0
  }

  /** Wallets whose first save falls on the day. */
  function NewOn(wallets: seq<Wallet>, keep: Keep, day: int): nat {
    if wallets == [] then 0
    else
      var w := wallets[|wallets| - 1];
      NewOn(wallets[..|wallets| - 1], keep, day) + (if keep(|wallets| - 1) && w.firstSeen.Some? && DayOf(w.firstSeen.value) == day then 1 else 0)
  }

  /** Wallets that count from before the history: no first save seen, but saves or a live autopilot. */
  function Before(wallets: seq<Wallet>, keep: Keep): nat {
    if wallets == [] then 0
    else
      var w := wallets[|wallets| - 1];
      Before(wallets[..|wallets| - 1], keep) + (if keep(|wallets| - 1) && w.firstSeen.None? && (w.sets > 0 || w.live.autopilots > 0) then 1 else 0)
  }

  function NewUpTo(wallets: seq<Wallet>, keep: Keep, first: int, n: nat): nat {
    if n == 0 then 0 else NewUpTo(wallets, keep, first, n - 1) + NewOn(wallets, keep, first + n - 1)
  }

  ghost predicate RowIs(r: DayRow, s: State, keep: Keep, first: int, k: nat) {
    && r.day == first + k
    && r.newUsers == NewOn(s.wallets, keep, r.day)
    && r.cumulativeUsers == Before(s.wallets, keep) + NewUpTo(s.wallets, keep, first, k + 1)
    && (forall f: Field :: DayPart(r, f) == RowSum(Parts(Row(s.days, r.day), f), keep))
    && r.active == RowSum(Active(Row(s.days, r.day)), keep)
  }

  /** The first day with an event, or the history's first day when there is none. */
  ghost predicate IsFirstDay(first: Option<int>, days: Days, historyFrom: Option<int>) {
    match first
    case None => days == map[] && historyFrom.None?
    case Some(d) =>
      if days == map[] then historyFrom.Some? && d == DayOf(historyFrom.value)
      else d in days && forall e :: e in days ==> d <= e
  }

  method FirstDay(days: Days, historyFrom: Option<int>) returns (first: Option<int>)
    ensures IsFirstDay(first, days, historyFrom)
  {
    if days == map[] {
      return if historyFrom.Some? then Some(DayOf(historyFrom.value)) else None;
    }
    ghost var key := SomeKey(days);
    var least :| least in days;
    var left := days - {least};
    while left != map[]
      invariant least in days
      invariant forall d :: d in left ==> d in days
      invariant forall d :: d in days && d !in left ==> least <= d
      decreases |left|
    {
      key := SomeKey(left);
      var d :| d in left;
      if d < least { least := d; }
      left := left - {d};
    }
    first := Some(least);
  }

  method CountNew(wallets: seq<Wallet>, keep: Keep) returns (newBy: map<int, nat>, before: nat)
    ensures forall d :: NewOn(wallets, keep, d) == (if d in newBy then newBy[d] else 0)
    ensures before == Before(wallets, keep)
  {
    newBy, before := map[], 0;
    for i := 0 to |wallets|
      invariant forall d :: NewOn(wallets[..i], keep, d) == (if d in newBy then newBy[d] else 0)
      invariant before == Before(wallets[..i], keep)
    {
      assert wallets[..i + 1][..i] == wallets[..i];
      var w := wallets[i];
      if keep(i) {
        if w.firstSeen.None? {
          if w.sets > 0 || w.live.autopilots > 0 { before := before + 1; }
        } else {
          var d := DayOf(w.firstSeen.value);
          newBy := newBy[d := (if d in newBy then newBy[d] else 0) + 1];
        }
      }
    }
    assert wallets[..|wallets|] == wallets;
  }

  method RowOf(day: int, cells: map<nat, Cell>, newUsers: nat, cumulativeUsers: nat, keep: Keep) returns (r: DayRow)
    ensures r.day == day && r.newUsers == newUsers && r.cumulativeUsers == cumulativeUsers
    ensures forall f: Field :: DayPart(r, f) == RowSum(Parts(cells, f), keep)
    ensures r.active == RowSum(Active(cells), keep)
  {
    var fired := SumRow(Parts(cells, Trades), keep);
    var swaps := SumRow(Parts(cells, Swaps), keep);
    var volume := SumRow(Parts(cells, Volume), keep);
    var sets := SumRow(Parts(cells, Sets), keep);
    var clears := SumRow(Parts(cells, Clears), keep);
    var volumeOut := SumRow(Parts(cells, VolumeOut), keep);
    var active := SumRow(Active(cells), keep);
    r := DayRow(day, newUsers, cumulativeUsers, fired, swaps, volume, sets, clears, volumeOut, active);
  }

  method DayRows(s: State, keep: Keep, first: int, now: int) returns (rows: seq<DayRow>)
    ensures |rows| == if DayOf(now) < first then 0 else DayOf(now) - first + 1
    ensures forall k :: 0 <= k < |rows| ==> RowIs(rows[k], s, keep, first, k)
  {
    rows := [];
    var newBy, total := CountNew(s.wallets, keep);
    var at := first * DAY_MS;
    while at <= now
      invariant at == (first + |rows|) * DAY_MS
      invariant rows != [] ==> first + |rows| - 1 <= DayOf(now)
      invariant total == Before(s.wallets, keep) + NewUpTo(s.wallets, keep, first, |rows|)
      invariant forall k :: 0 <= k < |rows| ==> RowIs(rows[k], s, keep, first, k)
      decreases now - at
    {
      var day := DayOf(at);
      assert day == first + |rows|;
      var newUsers := if day in newBy then newBy[day] else 0;
      total := total + newUsers;
      var row := RowOf(day, Row(s.days, day), newUsers, total, keep);
      assert RowIs(row, s, keep, first, |rows|);
      rows := rows + [row];
      at := at + DAY_MS;
    }
  }

  /** One row a day from the first day to today. */
  method Series(s: State, keep: Keep, historyFrom: Option<int>, now: int) returns (first: Option<int>, rows: seq<DayRow>)
    ensures IsFirstDay(first, s.days, historyFrom)
    ensures first.None? ==> rows == []
    ensures first.Some? ==> |rows| == (if DayOf(now) < first.value then 0 else DayOf(now) - first.value + 1)
    ensures first.Some? ==> forall k :: 0 <= k < |rows| ==> RowIs(rows[k], s, keep, first.value, k)
  {
    first := FirstDay(s.days, historyFrom);
    if first.None? { return first, []; }
    rows := DayRows(s, keep, first.value, now);
  }

  // ---- The series adds up ----

  function SeriesSum(rows: seq<DayRow>, f: Field): int {
    if rows == [] then 0 else SeriesSum(rows[..|rows| - 1], f) + DayPart(rows[|rows| - 1], f)
  }

  /** What the cells of each day add up to. */
  ghost function DayTotals(days: Days, keep: Keep, f: Field): map<int, int> {
    RowSums(DayParts(days, f), keep)
  }

  lemma DayTotalIs(days: Days, keep: Keep, f: Field, d: int)
    ensures Get(DayTotals(days, keep, f), d) == RowSum(Parts(Row(days, d), f), keep)
  {
    if d !in days {
      assert Kept(Parts(map[], f), keep) == map[];
    }
  }

  lemma {:induction false} SeriesIsRanged(rows: seq<DayRow>, f: Field, totals: map<int, int>, first: int)
    requires forall k :: 0 <= k < |rows| ==> DayPart(rows[k], f) == Get(totals, first + k)
    ensures SeriesSum(rows, f) == Ranged(totals, first, |rows|)
  {
    if rows != [] {
      SeriesIsRanged(rows[..|rows| - 1], f, totals, first);
    }
  }

  /** What a series of the page is: see `Series`. */
  ghost predicate SeriesOf(rows: seq<DayRow>, s: State, keep: Keep, first: int, now: int) {
    && |rows| == (if DayOf(now) < first then 0 else DayOf(now) - first + 1)
    && forall k :: 0 <= k < |rows| ==> RowIs(rows[k], s, keep, first, k)
  }

  lemma SeriesCounts(rows: seq<DayRow>, s: State, keep: Keep, first: int, now: int, f: Field)
    requires SeriesOf(rows, s, keep, first, now)
    ensures SeriesSum(rows, f) == Ranged(DayTotals(s.days, keep, f), first, |rows|)
  {
    forall k | 0 <= k < |rows| ensures DayPart(rows[k], f) == Get(DayTotals(s.days, keep, f), first + k) {
      assert RowIs(rows[k], s, keep, first, k);
      DayTotalIs(s.days, keep, f, first + k);
    }
    SeriesIsRanged(rows, f, DayTotals(s.days, keep, f), first);
  }

  /** With nothing from after `now`, the days shown add up to the wallets' totals, for any choice of wallets. */
  lemma SeriesAddsUp(ops: seq<Op>, keep: Keep, historyFrom: Option<int>, first: int, rows: seq<DayRow>, now: int, f: Field)
    requires IsFirstDay(Some(first), Reached(ops).days, historyFrom) && SeriesOf(rows, Reached(ops), keep, first, now)
    requires forall d :: d in Reached(ops).days ==> d <= DayOf(now)
    ensures SeriesSum(rows, f) == WalletSum(Reached(ops).wallets, keep, f)
  {
    AlwaysBalanced(ops, keep, f);
    SeriesCounts(rows, Reached(ops), keep, first, now, f);
    MapSumRange(DayTotals(Reached(ops).days, keep, f), first, |rows|);
  }

  // ---- The cumulative users ----

  /** Wallets with a first save in the history or before it, or with an autopilot stored now. */
  predicate SavedOrLive(w: Wallet) {
    w.firstSeen.Some? || w.sets > 0 || w.live.autopilots > 0
  }

  function CountSavedOrLive(wallets: seq<Wallet>, keep: Keep): nat {
    if wallets == [] then 0
    else CountSavedOrLive(wallets[..|wallets| - 1], keep) + (if keep(|wallets| - 1) && SavedOrLive(wallets[|wallets| - 1]) then 1 else 0)
  }

  lemma {:induction false} NewUpToOneMore(wallets: seq<Wallet>, w: Wallet, keep: Keep, first: int, n: nat)
    ensures NewUpTo(wallets + [w], keep, first, n)
         == NewUpTo(wallets, keep, first, n)
            + (if keep(|wallets|) && w.firstSeen.Some? && first <= DayOf(w.firstSeen.value) < first + n then 1 else 0)
  {
    if n > 0 {
      NewUpToOneMore(wallets, w, keep, first, n - 1);
      assert (wallets + [w])[..|wallets|] == wallets;
    }
  }

  lemma {:induction false} NoNewWithoutWallets(keep: Keep, first: int, n: nat)
    ensures NewUpTo([], keep, first, n) == 0
  {
    if n > 0 {
      NoNewWithoutWallets(keep, first, n - 1);
    }
  }

  lemma {:induction false} EveryoneIsNewOnce(wallets: seq<Wallet>, keep: Keep, first: int, n: nat)
    requires forall i :: 0 <= i < |wallets| && wallets[i].firstSeen.Some? ==> first <= DayOf(wallets[i].firstSeen.value) < first + n
    ensures Before(wallets, keep) + NewUpTo(wallets, keep, first, n) == CountSavedOrLive(wallets, keep)
  {
    if wallets == [] {
      NoNewWithoutWallets(keep, first, n);
    } else {
      var front, w := wallets[..|wallets| - 1], wallets[|wallets| - 1];
      EveryoneIsNewOnce(front, keep, first, n);
      assert wallets == front + [w];
      NewUpToOneMore(front, w, keep, first, n);
    }
  }

  /** With nothing from after `now`, the last day's cumulative users are the wallets that saved an autopilot or have one. */
  lemma LastDayCountsEveryUser(ops: seq<Op>, keep: Keep, historyFrom: Option<int>, first: int, rows: seq<DayRow>, now: int)
    requires IsFirstDay(Some(first), Reached(ops).days, historyFrom) && SeriesOf(rows, Reached(ops), keep, first, now)
    requires forall d :: d in Reached(ops).days ==> d <= DayOf(now)
    requires rows != []
    ensures rows[|rows| - 1].cumulativeUsers == CountSavedOrLive(Reached(ops).wallets, keep)
  {
    var s := Reached(ops);
    AlwaysWellKept(ops);
    forall i | 0 <= i < |s.wallets| && s.wallets[i].firstSeen.Some?
      ensures first <= DayOf(s.wallets[i].firstSeen.value) < first + |rows|
    {
      assert WalletOk(s.wallets[i], s.days);
    }
    assert RowIs(rows[|rows| - 1], s, keep, first, |rows| - 1);
    EveryoneIsNewOnce(s.wallets, keep, first, |rows|);
  }
}
