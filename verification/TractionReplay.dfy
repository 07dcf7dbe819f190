/** Reading the same events again, in overlapping batches, or in smaller ones changes nothing (packages/core/src/traction.ts:160-212). */
module TractionReplay {
  import opened Basics
  import opened Traction

  /** Everything up to event `id` is counted. */
  predicate CountedTo(s: State, id: int) {
    s.lastEventId.Some? && id <= s.lastEventId.value
  }

  ghost predicate AllCounted(s: State, events: seq<Event>) {
    forall i :: 0 <= i < |events| ==> CountedTo(s, events[i].id)
  }

  lemma {:induction false} FoldedBoth(s: State, a: seq<Event>, b: seq<Event>, p: Pricing)
    ensures Folded(s, a + b, p) == Folded(Folded(s, a, p), b, p)
  {
    if b == [] {
      assert a + b == a;
    } else {
      assert (a + b)[..|a + b| - 1] == a + b[..|b| - 1];
      FoldedBoth(s, a, b[..|b| - 1], p);
    }
  }

  lemma {:induction false} FoldedCounts(s: State, events: seq<Event>, p: Pricing)
    ensures AllCounted(Folded(s, events, p), events)
    ensures s.lastEventId.Some? ==> CountedTo(Folded(s, events, p), s.lastEventId.value)
  {
    if events != [] {
      FoldedCounts(s, events[..|events| - 1], p);
    }
  }

  lemma {:induction false} CountedIsSkipped(s: State, events: seq<Event>, p: Pricing)
    requires AllCounted(s, events)
    ensures Folded(s, events, p) == s
  {
    if events != [] {
      CountedIsSkipped(s, events[..|events| - 1], p);
    }
  }

  // ---- Hours dropped early are dropped anyway ----

  /** Equal but for hours before `cutoff`. */
  ghost predicate SameFrom(s: State, t: State, cutoff: int) {
    s.(hours := map[]) == t.(hours := map[]) && TrimHours(s.hours, cutoff) == TrimHours(t.hours, cutoff)
  }

  lemma SameHourRow(a: Hours, b: Hours, cutoff: int, i: nat, e: Event)
    requires TrimHours(a, cutoff) == TrimHours(b, cutoff)
    ensures TrimHours(HoursAfter(a, i, e), cutoff) == TrimHours(HoursAfter(b, i, e), cutoff)
  {
    if e.Fired? {
      var h := HourOf(e.at);
      assert TrimHours(a, cutoff).Keys == TrimHours(b, cutoff).Keys;
      if h >= cutoff {
        assert (h in a) == (h in TrimHours(a, cutoff));
        assert (h in b) == (h in TrimHours(b, cutoff));
        assert TrimHours(HoursAfter(a, i, e), cutoff) == TrimHours(a, cutoff)[h := Row(a, h)[i := FiredAt(Row(a, h), i) + 1]];
        assert TrimHours(HoursAfter(b, i, e), cutoff) == TrimHours(b, cutoff)[h := Row(b, h)[i := FiredAt(Row(b, h), i) + 1]];
      } else {
        assert TrimHours(HoursAfter(a, i, e), cutoff) == TrimHours(a, cutoff);
        assert TrimHours(HoursAfter(b, i, e), cutoff) == TrimHours(b, cutoff);
      }
    }
  }

  lemma {:induction false} FoldedSameFrom(s: State, t: State, events: seq<Event>, p: Pricing, cutoff: int)
    requires SameFrom(s, t, cutoff)
    ensures SameFrom(Folded(s, events, p), Folded(t, events, p), cutoff)
  {
    if events != [] {
      var front, e := events[..|events| - 1], events[|events| - 1];
      FoldedSameFrom(s, t, front, p, cutoff);
      var a, b := Folded(s, front, p), Folded(t, front, p);
      assert a.wallets == b.wallets && a.days == b.days && a.lastEventId == b.lastEventId && a.unpriced == b.unpriced by {
        assert a.(hours := map[]).wallets == b.(hours := map[]).wallets && a.(hours := map[]).days == b.(hours := map[]).days;
        assert a.(hours := map[]).lastEventId == b.(hours := map[]).lastEventId && a.(hours := map[]).unpriced == b.(hours := map[]).unpriced;
      }
      SameHourRow(a.hours, b.hours, cutoff, PlaceOf(a.wallets, e.user), e);
    }
  }

  lemma TrimIsSameFrom(s: State, now: int, later: int)
    requires now <= later
    ensures SameFrom(Trim(s, now), s, Cutoff(later))
  {
  }

  lemma SameFromTrims(s: State, t: State, now: int)
    requires SameFrom(s, t, Cutoff(now))
    ensures Trim(s, now) == Trim(t, now)
  {
    assert Trim(s, now) == s.(hours := map[]).(hours := TrimHours(s.hours, Cutoff(now)));
    assert Trim(t, now) == t.(hours := map[]).(hours := TrimHours(t.hours, Cutoff(now)));
  }

  // ---- The promises ----

  /** A batch read a second time changes nothing. */
  lemma TwiceIsOnce(s: State, events: seq<Event>, p: Pricing, now: int)
    ensures Applied(Applied(s, events, p, now), events, p, now) == Applied(s, events, p, now)
  {
    FoldedCounts(s, events, p);
    CountedIsSkipped(Applied(s, events, p, now), events, p);
    TrimIsSameFrom(Folded(s, events, p), now, now);
    SameFromTrims(Applied(s, events, p, now), Folded(s, events, p), now);
  }

  /** A run at a later clock does not see that hours were trimmed before. */
  lemma TrimmedBefore(t: State, events: seq<Event>, p: Pricing, now: int, later: int)
    requires now <= later
    ensures Applied(Trim(t, now), events, p, later) == Applied(t, events, p, later)
  {
    TrimIsSameFrom(t, now, later);
    FoldedSameFrom(Trim(t, now), t, events, p, Cutoff(later));
    SameFromTrims(Folded(Trim(t, now), events, p), Folded(t, events, p), later);
  }

  /** A batch read in two runs leaves what one run at the later time leaves. */
  lemma SplitIsWhole(s: State, a: seq<Event>, b: seq<Event>, p: Pricing, now: int, later: int)
    requires now <= later
    ensures Applied(Applied(s, a, p, now), b, p, later) == Applied(s, a + b, p, later)
  {
    FoldedBoth(s, a, b, p);
    TrimmedBefore(Folded(s, a, p), b, p, now, later);
  }

  /** Batches that overlap count what they share once. */
  lemma OverlapCountsOnce(s: State, a: seq<Event>, b: seq<Event>, c: seq<Event>, p: Pricing, now: int, later: int)
    requires now <= later
    ensures Applied(Applied(s, a + b, p, now), b + c, p, later) == Applied(s, a + b + c, p, later)
  {
    SplitIsWhole(s, a + b, b + c, p, now, later);
    var u := Folded(s, a + b, p);
    FoldedBoth(s, a + b, b + c, p);
    FoldedBoth(u, b, c, p);
    FoldedBoth(s, a, b, p);
    FoldedCounts(Folded(s, a, p), b, p);
    CountedIsSkipped(u, b, p);
    FoldedBoth(s, a + b, c, p);
  }

  // ---- Whole histories of runs ----

  /** The first events of a history counted, with no regard to ids, each at its own prices. */
  function Tallied(s: State, history: seq<Event>, prices: seq<Pricing>): State
    requires |prices| <= |history|
  {
    if prices == [] then s
    else
      var n := |prices| - 1;
      Counted(Tallied(s, history, prices[..n]), history[n], prices[n])
  }

  /** The router's whole history: ids rise, from after what the state has counted. */
  ghost predicate Ordered(s: State, history: seq<Event>) {
    && (forall i :: 0 <= i < |history| ==> !CountedTo(s, history[i].id))
    && (forall i, j :: 0 <= i < j < |history| ==> history[i].id < history[j].id)
  }

  /** One run takes history[from..to] at `now`, at the prices it reads. */
  datatype Read = Read(from: nat, to: nat, now: int, pricing: Pricing)

  /** How far the runs got. */
  function Covered(batches: seq<Read>): nat {
    if batches == [] then 0
    else
      var before, to := Covered(batches[..|batches| - 1]), batches[|batches| - 1].to;
      if to > before then to else before
  }

  /** The runs' reads leave no gap and their clocks do not go back; they may overlap at will. */
  predicate Contiguous(batches: seq<Read>, n: nat) {
    batches != [] ==>
      var r, front := batches[|batches| - 1], batches[..|batches| - 1];
      && r.from <= r.to <= n && r.from <= Covered(front) && Contiguous(front, n)
      && (front != [] ==> front[|front| - 1].now <= r.now)
  }

  /** The events up to `to` that had no prices yet get the run's. */
  function Extended(prices: seq<Pricing>, to: nat, p: Pricing): (ps: seq<Pricing>)
    ensures |ps| == if to > |prices| then to else |prices|
  {
    if to <= |prices| then prices else Extended(prices, to - 1, p) + [p]
  }

  /** For each event the prices of the first run that read it. */
  function PricesOf(batches: seq<Read>): (ps: seq<Pricing>)
    ensures |ps| == Covered(batches)
  {
    if batches == [] then [] else Extended(PricesOf(batches[..|batches| - 1]), batches[|batches| - 1].to, batches[|batches| - 1].pricing)
  }

  function AfterReads(s: State, history: seq<Event>, batches: seq<Read>): State {
    if batches == [] then s
    else
      var r := batches[|batches| - 1];
      var before := AfterReads(s, history, batches[..|batches| - 1]);
      if r.from <= r.to <= |history| then Applied(before, history[r.from..r.to], r.pricing, r.now) else before
  }

  lemma {:induction false} ContiguousIsWithin(batches: seq<Read>, n: nat)
    requires Contiguous(batches, n)
    ensures Covered(batches) <= n
  {
    if batches != [] {
      ContiguousIsWithin(batches[..|batches| - 1], n);
    }
  }

  /** The same with every event skipped or counted by its id. */
  function FoldedAt(s: State, history: seq<Event>, prices: seq<Pricing>): State
    requires |prices| <= |history|
  {
    if prices == [] then s
    else
      var n := |prices| - 1;
      Step(FoldedAt(s, history, prices[..n]), history[n], prices[n])
  }

  lemma {:induction false} OrderedCountsAll(s: State, history: seq<Event>, prices: seq<Pricing>)
    requires Ordered(s, history) && |prices| <= |history|
    ensures FoldedAt(s, history, prices) == Tallied(s, history, prices)
    ensures FoldedAt(s, history, prices).lastEventId == if prices == [] then s.lastEventId else Some(history[|prices| - 1].id)
  {
    if prices != [] {
      OrderedCountsAll(s, history, prices[..|prices| - 1]);
    }
  }

  lemma {:induction false} FoldedAtCounts(s: State, history: seq<Event>, prices: seq<Pricing>)
    requires |prices| <= |history|
    ensures forall i :: 0 <= i < |prices| ==> CountedTo(FoldedAt(s, history, prices), history[i].id)
  {
    if prices != [] {
      FoldedAtCounts(s, history, prices[..|prices| - 1]);
    }
  }

  /** Events among those counted are skipped. */
  lemma OldPartIsSkipped(s: State, history: seq<Event>, prices: seq<Pricing>, from: nat, to: nat, p: Pricing)
    requires from <= to <= |prices| <= |history|
    ensures Folded(FoldedAt(s, history, prices), history[from..to], p) == FoldedAt(s, history, prices)
  {
    FoldedAtCounts(s, history, prices);
    CountedIsSkipped(FoldedAt(s, history, prices), history[from..to], p);
  }

  /** Folding a stretch of the history, event by event. */
  function FoldedFrom(s: State, history: seq<Event>, from: nat, to: nat, p: Pricing): State
    requires from <= to <= |history|
  {
    if to == from then s else Step(FoldedFrom(s, history, from, to - 1, p), history[to - 1], p)
  }

  lemma FrontOfStretch(history: seq<Event>, from: nat, to: nat)
    requires from < to <= |history|
    ensures history[from..to] == history[from..to - 1] + [history[to - 1]]
  {
  }

  lemma FoldedAppended(s: State, events: seq<Event>, e: Event, p: Pricing)
    ensures Folded(s, events + [e], p) == Step(Folded(s, events, p), e, p)
  {
    assert (events + [e])[..|events|] == events;
  }

  lemma {:induction false} FoldedIsFrom(s: State, history: seq<Event>, from: nat, to: nat, p: Pricing)
    requires from <= to <= |history|
    ensures Folded(s, history[from..to], p) == FoldedFrom(s, history, from, to, p)
  {
    if from < to {
      FoldedIsFrom(s, history, from, to - 1, p);
      FoldedAppended(s, history[from..to - 1], history[to - 1], p);
      FrontOfStretch(history, from, to);
    }
  }

  lemma FoldedAtNext(s: State, history: seq<Event>, prices: seq<Pricing>, k: nat, p: Pricing)
    requires |prices| == k < |history|
    ensures FoldedAt(s, history, prices + [p]) == Step(FoldedAt(s, history, prices), history[k], p)
  {
    assert (prices + [p])[..k] == prices;
  }

  lemma OldStretch(s: State, history: seq<Event>, prices: seq<Pricing>, from: nat, to: nat, p: Pricing)
    requires from <= to <= |prices| <= |history|
    ensures FoldedFrom(FoldedAt(s, history, prices), history, from, to, p) == FoldedAt(s, history, prices)
  {
    OldPartIsSkipped(s, history, prices, from, to, p);
    FoldedIsFrom(FoldedAt(s, history, prices), history, from, to, p);
  }

  lemma NextOfStretch(s: State, u: State, history: seq<Event>, prices: seq<Pricing>, from: nat, to: nat, p: Pricing)
    requires from < to <= |history| && |prices| == to - 1
    requires FoldedFrom(u, history, from, to - 1, p) == FoldedAt(s, history, prices)
    ensures FoldedFrom(u, history, from, to, p) == FoldedAt(s, history, prices + [p])
  {
    FoldedAtNext(s, history, prices, to - 1, p);
  }

  lemma {:induction false} StretchAdds(s: State, history: seq<Event>, prices: seq<Pricing>, from: nat, to: nat, p: Pricing)
    requires from <= |prices| <= |history| && from <= to <= |history|
    ensures FoldedFrom(FoldedAt(s, history, prices), history, from, to, p) == FoldedAt(s, history, Extended(prices, to, p))
  {
    if to <= |prices| {
      OldStretch(s, history, prices, from, to, p);
    } else {
      StretchAdds(s, history, prices, from, to - 1, p);
      NextOfStretch(s, FoldedAt(s, history, prices), history, Extended(prices, to - 1, p), from, to, p);
    }
  }

  /** One more read, from a state that has the first events: it adds those it is the first to reach, at its own prices. */
  lemma ReadAdds(s: State, history: seq<Event>, prices: seq<Pricing>, from: nat, to: nat, p: Pricing)
    requires from <= |prices| <= |history| && from <= to <= |history|
    ensures Folded(FoldedAt(s, history, prices), history[from..to], p) == FoldedAt(s, history, Extended(prices, to, p))
  {
    FoldedIsFrom(FoldedAt(s, history, prices), history, from, to, p);
    StretchAdds(s, history, prices, from, to, p);
  }

  /** The next run, from a state that was trimmed at an earlier clock. */
  lemma NextRun(s: State, history: seq<Event>, prices: seq<Pricing>, now: int, r: Read)
    requires r.from <= |prices| <= |history| && r.from <= r.to <= |history| && now <= r.now
    ensures Applied(Trim(FoldedAt(s, history, prices), now), history[r.from..r.to], r.pricing, r.now)
         == Trim(FoldedAt(s, history, Extended(prices, r.to, r.pricing)), r.now)
  {
    ReadAdds(s, history, prices, r.from, r.to, r.pricing);
    TrimmedBefore(FoldedAt(s, history, prices), history[r.from..r.to], r.pricing, now, r.now);
  }

  lemma {:induction false} RunsFold(s: State, history: seq<Event>, batches: seq<Read>)
    requires batches != [] && Contiguous(batches, |history|)
    ensures Covered(batches) <= |history|
    ensures AfterReads(s, history, batches) == Trim(FoldedAt(s, history, PricesOf(batches)), batches[|batches| - 1].now)
  {
    ContiguousIsWithin(batches, |history|);
    var front, r := batches[..|batches| - 1], batches[|batches| - 1];
    if front == [] {
      ReadAdds(s, history, [], r.from, r.to, r.pricing);
    } else {
      RunsFold(s, history, front);
      NextRun(s, history, PricesOf(front), front[|front| - 1].now, r);
    }
  }

  /**
    * However the hourly runs cut up the history, repeat parts of it or crash and read them again: the state is the one that
    * counts every event read exactly once, at the prices of the first run that read it, trimmed at the last run's clock.
    */
  lemma RunsCountEachEventOnce(s: State, history: seq<Event>, batches: seq<Read>)
    requires Ordered(s, history) && batches != [] && Contiguous(batches, |history|)
    ensures Covered(batches) <= |history|
    ensures AfterReads(s, history, batches) == Trim(Tallied(s, history, PricesOf(batches)), batches[|batches| - 1].now)
  {
    RunsFold(s, history, batches);
    OrderedCountsAll(s, history, PricesOf(batches));
  }
}
