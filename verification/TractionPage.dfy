/**
  * What the traction page's counts of people mean (packages/core/src/traction.ts:228-389), as numbers of wallets: who is a user
  * now or ever was, who is new or active on a day, and who is organic.
  */
module TractionPage {
  import opened Basics
  import opened Sums
  import opened Traction
  import opened TractionTotals
  import opened TractionSummary

  // ---- Counting wallets ----

  /** The places of the chosen wallets with a property. */
  ghost function Places(wallets: seq<Wallet>, keep: Keep, has: Wallet -> bool): set<nat> {
    set i: nat | i < |wallets| && keep(i) && has(wallets[i])
  }

  lemma OneMorePlace(wallets: seq<Wallet>, keep: Keep, has: Wallet -> bool)
    requires wallets != []
    ensures var n := |wallets| - 1;
            |Places(wallets, keep, has)| == |Places(wallets[..n], keep, has)| + (if keep(n) && has(wallets[n]) then 1 else 0)
  {
    var n := |wallets| - 1;
    var front := Places(wallets[..n], keep, has);
    if keep(n) && has(wallets[n]) {
      assert Places(wallets, keep, has) == front + {n};
    } else {
      assert Places(wallets, keep, has) == front;
    }
  }

  predicate LiveNow(w: Wallet) {
    w.live.autopilots > 0
  }

  predicate EverSaved(w: Wallet) {
    w.firstSeen.Some? || w.sets > 0
  }

  predicate SavedOn(w: Wallet, day: int) {
    w.firstSeen.Some? && w.firstSeen.value / 86_400_000 == day
  }

  /** Known from the views or from saves, with the first save before the history. */
  predicate FromBefore(w: Wallet) {
    w.firstSeen.None? && (w.sets > 0 || w.live.autopilots > 0)
  }

  /** A user by the end of a day of the series that starts on `first`. */
  predicate UserBy(w: Wallet, first: int, day: int) {
    FromBefore(w) || (w.firstSeen.Some? && first <= w.firstSeen.value / 86_400_000 <= day)
  }

  lemma {:induction false} UsersAreCounted(wallets: seq<Wallet>, keep: Keep)
    ensures StatSum(wallets, keep, UsersNow) == |Places(wallets, keep, LiveNow)|
    ensures StatSum(wallets, keep, UsersEver) == |Places(wallets, keep, EverSaved)|
  {
    if wallets != [] {
      UsersAreCounted(wallets[..|wallets| - 1], keep);
      OneMorePlace(wallets, keep, LiveNow);
      OneMorePlace(wallets, keep, EverSaved);
    }
  }

  lemma {:induction false} NewAreCounted(wallets: seq<Wallet>, keep: Keep, day: int)
    ensures NewOn(wallets, keep, day) == |Places(wallets, keep, w => SavedOn(w, day))|
  {
    if wallets != [] {
      NewAreCounted(wallets[..|wallets| - 1], keep, day);
      OneMorePlace(wallets, keep, w => SavedOn(w, day));
    }
  }

  lemma {:induction false} BeforeAreCounted(wallets: seq<Wallet>, keep: Keep)
    ensures Before(wallets, keep) == |Places(wallets, keep, FromBefore)|
  {
    if wallets != [] {
      BeforeAreCounted(wallets[..|wallets| - 1], keep);
      OneMorePlace(wallets, keep, FromBefore);
    }
  }

  lemma BeforeTheSeries(wallets: seq<Wallet>, keep: Keep, first: int)
    ensures Places(wallets, keep, w => UserBy(w, first, first - 1)) == Places(wallets, keep, FromBefore)
  {
  }

  lemma OneMoreDay(wallets: seq<Wallet>, keep: Keep, first: int, day: int)
    requires first <= day
    ensures |Places(wallets, keep, w => UserBy(w, first, day))|
         == |Places(wallets, keep, w => UserBy(w, first, day - 1))| + |Places(wallets, keep, w => SavedOn(w, day))|
  {
    var before := day - 1;
    var earlier, today := Places(wallets, keep, w => UserBy(w, first, before)), Places(wallets, keep, w => SavedOn(w, day));
    assert Places(wallets, keep, w => UserBy(w, first, day)) == earlier + today;
    assert earlier !! today;
  }

  lemma {:induction false} UsersByDay(wallets: seq<Wallet>, keep: Keep, first: int, n: nat)
    ensures Before(wallets, keep) + NewUpTo(wallets, keep, first, n) == |Places(wallets, keep, w => UserBy(w, first, first + n - 1))|
  {
    if n == 0 {
      BeforeAreCounted(wallets, keep);
      BeforeTheSeries(wallets, keep, first);
    } else {
      UsersByDay(wallets, keep, first, n - 1);
      NewAreCounted(wallets, keep, first + n - 1);
      OneMoreDay(wallets, keep, first, first + n - 1);
    }
  }

  // ---- A day's active wallets ----

  ghost function ActivePlaces(row: map<nat, Cell>, keep: Keep): set<nat> {
    set i | i in row && keep(i) && row[i].fired > 0
  }

  lemma ActiveWithout(row: map<nat, Cell>, i: nat, keep: Keep)
    requires i in row
    ensures |ActivePlaces(row, keep)| == |ActivePlaces(row - {i}, keep)| + (if keep(i) && row[i].fired > 0 then 1 else 0)
    ensures Active(row) - {i} == Active(row - {i})
  {
    var rest := ActivePlaces(row - {i}, keep);
    if keep(i) && row[i].fired > 0 {
      assert ActivePlaces(row, keep) == rest + {i};
    } else {
      assert ActivePlaces(row, keep) == rest;
    }
  }

  lemma {:induction false} ActiveAreCounted(row: map<nat, Cell>, keep: Keep)
    ensures RowSum(Active(row), keep) == |ActivePlaces(row, keep)|
    decreases |row|
  {
    if row == map[] {
      assert Kept(Active(row), keep) == map[] && ActivePlaces(row, keep) == {};
    } else {
      var i :| i in row;
      TakeShrinks(row, i);
      ActiveAreCounted(row - {i}, keep);
      ActiveWithout(row, i, keep);
      KeptWithout(Active(row), i, keep);
    }
  }

  // ---- What is shown ----

  /** The headline's users: those with an autopilot live now, and those that ever saved one. */
  lemma HeadlineCountsUsers(c: Counts, s: State, keep: Keep, now: int)
    requires CountsAre(c, s, keep, now)
    ensures c.users == |Places(s.wallets, keep, LiveNow)| && c.usersEver == |Places(s.wallets, keep, EverSaved)|
  {
    UsersAreCounted(s.wallets, keep);
    assert CountPart(c, UsersNow) == StatSum(s.wallets, keep, UsersNow) && CountPart(c, UsersEver) == StatSum(s.wallets, keep, UsersEver);
  }

  /** A row of the series: the chosen wallets that first saved that day, those that had by then, and those that traded on it. */
  lemma RowCountsUsers(r: DayRow, s: State, keep: Keep, first: int, k: nat)
    requires RowIs(r, s, keep, first, k)
    ensures r.day == first + k
    ensures r.newUsers == |Places(s.wallets, keep, w => SavedOn(w, r.day))|
    ensures r.cumulativeUsers == |Places(s.wallets, keep, w => UserBy(w, first, r.day))|
    ensures r.active == |ActivePlaces(if r.day in s.days then s.days[r.day] else map[], keep)|
  {
    NewAreCounted(s.wallets, keep, r.day);
    UsersByDay(s.wallets, keep, first, k + 1);
    ActiveAreCounted(Row(s.days, r.day), keep);
  }

  /** The load test's wallets: first saved between 14:00 and 16:00 UTC on 28 October 2026, traded, and only ever swapped USDC and ETH. */
  ghost predicate LooksLikeLoadTest(w: Wallet) {
    && w.firstSeen.Some? && 1_793_196_000_000 <= w.firstSeen.value < 1_793_203_200_000 && w.trades != 0
    && (forall kind :: kind in w.kinds ==> kind == "swap") && (forall i :: 0 <= i < |w.tokens| ==> w.tokens[i] == "USDC" || w.tokens[i] == "ETH")
  }

  /** Organic is whoever is not tagged as team, none of its bots, and no load test wallet; the team's side is everyone else. */
  lemma OrganicMeans(wallets: seq<Wallet>, team: set<Address>, i: nat)
    requires i < |wallets|
    ensures var w := wallets[i];
            var organic := w.address !in team && w.address !in TEAM_WALLETS && !LooksLikeLoadTest(w);
            && (Chosen(Groups(wallets, team), ORGANIC)(i) <==> organic)
            && (Chosen(Groups(wallets, team), NOT_ORGANIC)(i) <==> !organic)
            && Chosen(Groups(wallets, team), EVERYONE)(i)
  {
    var w := wallets[i];
    if LooksLikeLoadTest(w) {
      forall t | t in w.tokens ensures t == "USDC" || t == "ETH" {
        var j :| 0 <= j < |w.tokens| && w.tokens[j] == t;
      }
    }
    assert IsLoadTest(w) ==> forall j :: 0 <= j < |w.tokens| ==> w.tokens[j] in w.tokens;
    assert IsLoadTest(w) <==> LooksLikeLoadTest(w);
  }
}
