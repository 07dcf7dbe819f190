/**
  * What a score can gain between two scorings at the same prices. A wallet's transactions move its tokens and its lending
  * position; the indexer sees the transfers.
  */
module ScoringRuns {
  import opened Basics
  import opened Sums
  import opened Scoring

  /** A transaction of the wallet: its transfers, and how its supplied and borrowed USDC changed. */
  datatype Tx = Tx(hash: string, transfers: seq<Transfer>, supplied: int, borrowed: int)

  function Shift(amounts: map<Address, int>, id: Address, change: int): map<Address, int> {
    amounts[id := Get(amounts, id) + change]
  }

  /** What a transfer changes in the wallet's balance. */
  function Change(e: Transfer, wallet: Address): int {
    (if e.to == wallet then e.amount else 0) - (if e.from == Some(wallet) then e.amount else 0)
  }

  function Moved(h: Holdings, e: Transfer, wallet: Address): Holdings {
    h.(tokens := Shift(h.tokens, e.token, Change(e, wallet)))
  }

  function MovedAll(h: Holdings, transfers: seq<Transfer>, wallet: Address): Holdings {
    if transfers == [] then h else Moved(MovedAll(h, transfers[..|transfers| - 1], wallet), transfers[|transfers| - 1], wallet)
  }

  function AfterTx(h: Holdings, tx: Tx, wallet: Address): Holdings {
    var m := MovedAll(h, tx.transfers, wallet);
    m.(supplied := m.supplied + tx.supplied, borrowed := m.borrowed + tx.borrowed)
  }

  function AfterAll(h: Holdings, txs: seq<Tx>, wallet: Address): Holdings {
    if txs == [] then h else AfterTx(AfterAll(h, txs[..|txs| - 1], wallet), txs[|txs| - 1], wallet)
  }

  function Transfers(txs: seq<Tx>): seq<Transfer> {
    if txs == [] then [] else Transfers(txs[..|txs| - 1]) + txs[|txs| - 1].transfers
  }

  /** Every transfer is the transaction's own and has the wallet on one side. */
  ghost predicate TxOk(tx: Tx, wallet: Address) {
    forall i :: 0 <= i < |tx.transfers| ==> tx.transfers[i].tx == tx.hash && (tx.transfers[i].to == wallet || tx.transfers[i].from == Some(wallet))
  }

  ghost predicate HistoryOk(txs: seq<Tx>, wallet: Address) {
    && (forall i :: 0 <= i < |txs| ==> TxOk(txs[i], wallet))
    && (forall i, j :: 0 <= i < j < |txs| ==> txs[i].hash != txs[j].hash)
  }

  ghost predicate DistinctTokens(tokens: seq<Token>) {
    forall i, j :: 0 <= i < j < |tokens| ==> tokens[i].id != tokens[j].id
  }

  /** What the transaction moved inside the wallet, as the indexer sees it. */
  function LegOf(tx: Tx, env: Env): Leg {
    var legs := TallyOf(tx.transfers, env).legs;
    if tx.hash in legs then legs[tx.hash] else NO_LEG
  }

  /** The score of a wallet that holds `h`. */
  function Score(s: Totals, h: Holdings, env: Env): real {
    Pnl(s, ScoredValue(s, h, env))
  }

  /** What the transaction adds to the score at constant prices. */
  function Gain(tx: Tx, env: Env): real {
    var leg := LegOf(tx, env);
    leg.inUsd - leg.outUsd + LendingUsd(tx.supplied - tx.borrowed) - Edge(leg)
  }

  function TotalGain(txs: seq<Tx>, env: Env): real {
    if txs == [] then 0.0 else TotalGain(txs[..|txs| - 1], env) + Gain(txs[|txs| - 1], env)
  }

  // ---- Value follows the transfers ----

  lemma UsdOfSum(t: Token, a: int, b: int, prices: map<string, real>)
    ensures Usd(t, a + b, prices) == Usd(t, a, prices) + Usd(t, b, prices)
  {
    var u := PerUnit(t, prices);
    assert (a + b) as real * u == a as real * u + b as real * u;
  }

  lemma LendingOfSum(a: int, b: int)
    ensures LendingUsd(a + b) == LendingUsd(a) + LendingUsd(b)
  {
  }

  lemma {:induction false} UntouchedToken(amounts: map<Address, int>, id: Address, v: int, tokens: seq<Token>, prices: map<string, real>)
    requires forall i :: 0 <= i < |tokens| ==> tokens[i].id != id
    ensures TokensUsd(amounts[id := v], tokens, prices) == TokensUsd(amounts, tokens, prices)
    ensures Find(tokens, id) == None
  {
    if tokens != [] {
      UntouchedToken(amounts, id, v, tokens[..|tokens| - 1], prices);
    }
  }

  function UsdFound(tokens: seq<Token>, id: Address, amount: int, prices: map<string, real>): real {
    match Find(tokens, id)
    case None => 0.0
    case Some(t) => Usd(t, amount, prices)
  }

  lemma {:induction false} ShiftedValue(amounts: map<Address, int>, id: Address, change: int, tokens: seq<Token>, prices: map<string, real>)
    requires DistinctTokens(tokens)
    ensures TokensUsd(Shift(amounts, id, change), tokens, prices) == TokensUsd(amounts, tokens, prices) + UsdFound(tokens, id, change, prices)
  {
    if tokens != [] {
      var t := tokens[|tokens| - 1];
      if t.id == id {
        UntouchedToken(amounts, id, Get(amounts, id) + change, tokens[..|tokens| - 1], prices);
        UsdOfSum(t, Get(amounts, id), change, prices);
      } else {
        ShiftedValue(amounts, id, change, tokens[..|tokens| - 1], prices);
      }
    }
  }

  function Signed(e: Effect): real {
    match e
    case Skip => 0.0
    case Outside(incoming, usd) => if incoming then usd else -usd
    case Inside(m) => if m.incoming then m.usd else -m.usd
  }

  lemma UsdOfNegative(t: Token, a: int, prices: map<string, real>)
    ensures Usd(t, 0 - a, prices) == -Usd(t, a, prices)
  {
    UsdOfSum(t, a, 0 - a, prices);
  }

  lemma SignedIsChange(e: Transfer, env: Env)
    requires e.to == env.wallet || e.from == Some(env.wallet)
    ensures UsdFound(env.tokens, e.token, Change(e, env.wallet), env.prices) == Signed(Classify(e, env))
  {
    match Find(env.tokens, e.token)
    case None =>
    case Some(t) =>
      UsdOfNegative(t, e.amount, env.prices);
      assert Usd(t, 0, env.prices) == 0.0;
  }

  lemma MovedValue(h: Holdings, e: Transfer, env: Env)
    requires DistinctTokens(env.tokens) && (e.to == env.wallet || e.from == Some(env.wallet))
    ensures Value(Moved(h, e, env.wallet), env.tokens, env.prices) == Value(h, env.tokens, env.prices) + Signed(Classify(e, env))
  {
    ShiftedValue(h.tokens, e.token, Change(e, env.wallet), env.tokens, env.prices);
    SignedIsChange(e, env);
  }

  /** One transaction: its value change is what came in from outside, the legs inside, and the lending position's change. */
  lemma {:induction false} MovedAllValue(h: Holdings, hash: string, transfers: seq<Transfer>, env: Env)
    requires DistinctTokens(env.tokens) && TxOk(Tx(hash, transfers, 0, 0), env.wallet)
    ensures var t := TallyOf(transfers, env);
            var leg := LegOf(Tx(hash, transfers, 0, 0), env);
            && t.legs.Keys <= {hash}
            && Value(MovedAll(h, transfers, env.wallet), env.tokens, env.prices)
               == Value(h, env.tokens, env.prices) + t.inUsd - t.outUsd + leg.inUsd - leg.outUsd
  {
    if transfers != [] {
      var front, e := transfers[..|transfers| - 1], transfers[|transfers| - 1];
      MovedAllValue(h, hash, front, env);
      MovedValue(MovedAll(h, front, env.wallet), e, env);
    }
  }

  lemma TxValue(h: Holdings, tx: Tx, env: Env)
    requires DistinctTokens(env.tokens) && TxOk(tx, env.wallet)
    ensures var t := TallyOf(tx.transfers, env);
            && t.legs.Keys <= {tx.hash}
            && Value(AfterTx(h, tx, env.wallet), env.tokens, env.prices)
               == Value(h, env.tokens, env.prices) + t.inUsd - t.outUsd + Gain(tx, env) + Edge(LegOf(tx, env))
  {
    MovedAllValue(h, tx.hash, tx.transfers, env);
    assert TxOk(Tx(tx.hash, tx.transfers, 0, 0), env.wallet);
    var m := MovedAll(h, tx.transfers, env.wallet);
    assert MovedAll(h, tx.transfers, env.wallet).supplied == m.supplied;
    LendingOfSum(m.supplied - m.borrowed, tx.supplied - tx.borrowed);
  }

  // ---- The tally of several transactions ----

  /** What a tally says came in, net of outside money going out and of edges. */
  ghost function Net(t: Tally): real {
    t.inUsd - t.outUsd + RealSum(Edges(t.legs))
  }

  /** A transaction's tally has no leg but its own. */
  lemma NetOfOwn(tx: Tx, env: Env)
    requires TxOk(tx, env.wallet)
    ensures var own := TallyOf(tx.transfers, env);
            own.legs.Keys <= {tx.hash} && Net(own) == own.inUsd - own.outUsd + Edge(LegOf(tx, env))
  {
    var own := TallyOf(tx.transfers, env);
    forall hash | hash in own.legs ensures hash == tx.hash {
      LegsAreTheirs(tx.transfers, hash, At(env));
    }
    if tx.hash in own.legs {
      assert own.legs == map[tx.hash := own.legs[tx.hash]];
      assert Edges(own.legs) == map[tx.hash := Edge(own.legs[tx.hash])];
      RealSumOne(tx.hash, Edge(own.legs[tx.hash]));
    } else {
      assert Edges(own.legs) == map[];
    }
  }

  lemma NetOfJoined(t: Tally, tx: Tx, env: Env)
    requires TxOk(tx, env.wallet) && tx.hash !in t.legs
    ensures var own := TallyOf(tx.transfers, env);
            var u := Fold(Adder(At(env)), t, tx.transfers);
            u.legs.Keys <= t.legs.Keys + {tx.hash} && Net(u) == Net(t) + own.inUsd - own.outUsd + Edge(LegOf(tx, env))
  {
    NetOfOwn(tx, env);
    TallyJoins(t, tx.transfers, At(env));
    EdgesJoin(t.legs, TallyOf(tx.transfers, env).legs);
  }

  ghost predicate HashesOf(legs: map<string, Leg>, txs: seq<Tx>) {
    forall hash :: hash in legs ==> exists i :: 0 <= i < |txs| && txs[i].hash == hash
  }

  lemma HashIsNew(legs: map<string, Leg>, txs: seq<Tx>, more: map<string, Leg>, wallet: Address)
    requires HistoryOk(txs, wallet) && txs != [] && HashesOf(legs, txs[..|txs| - 1])
    requires more.Keys <= legs.Keys + {txs[|txs| - 1].hash}
    ensures txs[|txs| - 1].hash !in legs && HashesOf(more, txs)
  {
    var n := |txs| - 1;
    forall hash | hash in more ensures exists i :: 0 <= i < |txs| && txs[i].hash == hash {
      if hash in legs {
        var i :| 0 <= i < n && txs[..n][i].hash == hash;
        assert txs[i].hash == hash;
      } else {
        assert txs[n].hash == hash;
      }
    }
  }

  lemma {:induction false} HistoryValue(h: Holdings, txs: seq<Tx>, env: Env)
    requires DistinctTokens(env.tokens) && HistoryOk(txs, env.wallet)
    ensures var t := TallyOf(Transfers(txs), env);
            && HashesOf(t.legs, txs)
            && Value(AfterAll(h, txs, env.wallet), env.tokens, env.prices)
               == Value(h, env.tokens, env.prices) + Net(t) + TotalGain(txs, env)
  {
    if txs == [] {
      assert Edges(map[]) == map[];
    } else {
      var front, tx := txs[..|txs| - 1], txs[|txs| - 1];
      var t := TallyOf(Transfers(front), env);
      HistoryValue(h, front, env);
      TxValue(AfterAll(h, front, env.wallet), tx, env);
      FoldBoth(Adder(At(env)), NO_TALLY, Transfers(front), tx.transfers);
      HashIsNew(t.legs, txs, t.legs, env.wallet);
      NetOfJoined(t, tx, env);
      HashIsNew(t.legs, txs, TallyOf(Transfers(txs), env).legs, env.wallet);
    }
  }

  // ---- Between two scorings ----

  /** Value the indexer does not read yet: tokens that are not built in and have not moved. */
  function Hidden(h: Holdings, seen: set<Address>, env: Env): real {
    Value(h, env.tokens, env.prices) - Value(Visible(h, seen, env), env.tokens, env.prices)
  }

  /**
    * After the first scoring, at equal prices: the score changes by the gains of the transactions, whatever order their
    * transfers were read in, and by the value of what was held but had not been read before.
    */
  lemma PnlChange(s: Totals, h: Holdings, txs: seq<Tx>, read: seq<Transfer>, fired: set<string>, env: Env)
    requires DistinctTokens(env.tokens) && HistoryOk(txs, env.wallet)
    requires s.openingUsd.Some? && multiset(read) == multiset(Transfers(txs))
    ensures var g := AfterAll(h, txs, env.wallet);
            var after := Indexed(s, read, fired, g, env);
            Score(after, g, env)
            == Score(s, h, env) + TotalGain(txs, env) + Hidden(h, s.seen, env) - Hidden(g, after.seen, env)
  {
    HistoryValue(h, txs, env);
    TransferOrderIsIrrelevant(read, Transfers(txs), At(env));
  }

  /** What the wallet held of tokens the indexer reads for the first time after this run. */
  function Revealed(h: Holdings, before: set<Address>, after: set<Address>, env: Env): map<Address, int> {
    map id | id in h.tokens && id !in env.builtIn && id !in before && id in after :: h.tokens[id]
  }

  lemma {:induction false} UnmovedInTransfers(h: Holdings, transfers: seq<Transfer>, id: Address, env: Env)
    requires Find(env.tokens, id).Some? && id !in TallyOf(transfers, env).seen
    requires forall i :: 0 <= i < |transfers| ==> transfers[i].to == env.wallet || transfers[i].from == Some(env.wallet)
    ensures Get(MovedAll(h, transfers, env.wallet).tokens, id) == Get(h.tokens, id)
  {
    if transfers != [] {
      UnmovedInTransfers(h, transfers[..|transfers| - 1], id, env);
    }
  }

  lemma {:induction false} SeenAfter(t: Tally, transfers: seq<Transfer>, env: Env)
    ensures Fold(Adder(At(env)), t, transfers).seen == t.seen + TallyOf(transfers, env).seen
  {
    if transfers != [] {
      SeenAfter(t, transfers[..|transfers| - 1], env);
    }
  }

  lemma {:induction false} Unmoved(h: Holdings, txs: seq<Tx>, id: Address, env: Env)
    requires HistoryOk(txs, env.wallet) && Find(env.tokens, id).Some? && id !in TallyOf(Transfers(txs), env).seen
    ensures Get(AfterAll(h, txs, env.wallet).tokens, id) == Get(h.tokens, id)
  {
    if txs != [] {
      var front, tx := txs[..|txs| - 1], txs[|txs| - 1];
      FoldBoth(Adder(At(env)), NO_TALLY, Transfers(front), tx.transfers);
      SeenAfter(TallyOf(Transfers(front), env), tx.transfers, env);
      Unmoved(h, front, id, env);
      assert TxOk(tx, env.wallet);
      UnmovedInTransfers(AfterAll(h, front, env.wallet), tx.transfers, id, env);
    }
  }

  lemma UsdFollows(t: Token, a: int, b: int, c: int, d: int, e: int, prices: map<string, real>)
    requires a - b == c - d + e
    ensures Usd(t, a, prices) - Usd(t, b, prices) == Usd(t, c, prices) - Usd(t, d, prices) + Usd(t, e, prices)
  {
    UsdOfSum(t, a, d, prices);
    UsdOfSum(t, c, b, prices);
    UsdOfSum(t, c + b, e, prices);
  }

  lemma {:induction false} TokensUsdAdds(a: map<Address, int>, b: map<Address, int>, c: map<Address, int>, d: map<Address, int>, e: map<Address, int>,
                                         tokens: seq<Token>, prices: map<string, real>)
    requires forall i :: 0 <= i < |tokens| ==>
                           Get(a, tokens[i].id) - Get(b, tokens[i].id) == Get(c, tokens[i].id) - Get(d, tokens[i].id) + Get(e, tokens[i].id)
    ensures TokensUsd(a, tokens, prices) - TokensUsd(b, tokens, prices)
         == TokensUsd(c, tokens, prices) - TokensUsd(d, tokens, prices) + TokensUsd(e, tokens, prices)
  {
    if tokens != [] {
      var t := tokens[|tokens| - 1];
      TokensUsdAdds(a, b, c, d, e, tokens[..|tokens| - 1], prices);
      UsdFollows(t, Get(a, t.id), Get(b, t.id), Get(c, t.id), Get(d, t.id), Get(e, t.id), prices);
    }
  }

  lemma {:induction false} FindListed(tokens: seq<Token>, i: nat)
    requires i < |tokens|
    ensures Find(tokens, tokens[i].id).Some?
  {
    if i < |tokens| - 1 {
      FindListed(tokens[..|tokens| - 1], i);
    }
  }

  /** The unread value that shows up is what was held of the tokens now seen for the first time. */
  lemma HiddenIsRevealed(s: Totals, h: Holdings, txs: seq<Tx>, read: seq<Transfer>, fired: set<string>, env: Env)
    requires HistoryOk(txs, env.wallet) && multiset(read) == multiset(Transfers(txs))
    ensures var after := Indexed(s, read, fired, AfterAll(h, txs, env.wallet), env);
            Hidden(h, s.seen, env) - Hidden(AfterAll(h, txs, env.wallet), after.seen, env)
            == TokensUsd(Revealed(h, s.seen, after.seen, env), env.tokens, env.prices)
  {
    var g := AfterAll(h, txs, env.wallet);
    var seen := s.seen + TallyOf(Transfers(txs), env).seen;
    TransferOrderIsIrrelevant(read, Transfers(txs), At(env));
    var e := Revealed(h, s.seen, seen, env);
    var shown, shownAfter := Visible(h, s.seen, env).tokens, Visible(g, seen, env).tokens;
    forall i | 0 <= i < |env.tokens|
      ensures Get(h.tokens, env.tokens[i].id) - Get(shown, env.tokens[i].id)
           == Get(g.tokens, env.tokens[i].id) - Get(shownAfter, env.tokens[i].id) + Get(e, env.tokens[i].id)
    {
      var id := env.tokens[i].id;
      if id !in seen {
        FindListed(env.tokens, i);
        Unmoved(h, txs, id, env);
      }
    }
    TokensUsdAdds(h.tokens, shown, g.tokens, shownAfter, e, env.tokens, env.prices);
  }

  // ---- Kinds of transaction ----

  /** What a swap lost against the oracle. */
  function Loss(leg: Leg): real {
    if leg.outUsd > leg.inUsd then leg.outUsd - leg.inUsd else 0.0
  }

  /** Nothing moved inside the wallet: only outside money, if any. */
  predicate OutsideOnly(tx: Tx, env: Env) {
    LegOf(tx, env) == NO_LEG && tx.supplied == tx.borrowed
  }

  /** One token moved, and the lending position gained what left the wallet. */
  predicate Lending(tx: Tx, env: Env) {
    |LegOf(tx, env).tokens| == 1 && LendingUsd(tx.supplied - tx.borrowed) == LegOf(tx, env).outUsd - LegOf(tx, env).inUsd
  }

  /** Tokens went to other contracts and different ones came back; the lending position is as it was. */
  predicate Swap(tx: Tx, env: Env) {
    |LegOf(tx, env).tokens| >= 2 && tx.supplied == tx.borrowed
  }

  function TotalLoss(txs: seq<Tx>, env: Env): real {
    if txs == [] then 0.0
    else TotalLoss(txs[..|txs| - 1], env) + (if Swap(txs[|txs| - 1], env) then Loss(LegOf(txs[|txs| - 1], env)) else 0.0)
  }

  /** Lending and outside money never change the score; a swap never raises it, if what it sold had a price. */
  predicate Scored(tx: Tx, env: Env) {
    OutsideOnly(tx, env) || Lending(tx, env) || (Swap(tx, env) && LegOf(tx, env).outUsd > 0.0)
  }

  lemma GainOfScored(tx: Tx, env: Env)
    requires Scored(tx, env)
    ensures Gain(tx, env) == if Swap(tx, env) then -Loss(LegOf(tx, env)) else 0.0
  {
  }

  /** What the transaction's lending is worth to the score. */
  function LendingChange(tx: Tx): real {
    LendingUsd(tx.supplied - tx.borrowed)
  }

  lemma {:induction false} GainIsLoss(txs: seq<Tx>, env: Env)
    requires forall i :: 0 <= i < |txs| ==> Scored(txs[i], env)
    ensures TotalGain(txs, env) == -TotalLoss(txs, env) <= 0.0
  {
    if txs != [] {
      GainIsLoss(txs[..|txs| - 1], env);
      GainOfScored(txs[|txs| - 1], env);
    }
  }

  /**
    * Any transactions at all, at equal prices: the score changes by what each of them gains, and by the value of tokens held
    * from before and read now for the first time.
    */
  lemma PnlExactly(s: Totals, h: Holdings, txs: seq<Tx>, read: seq<Transfer>, fired: set<string>, env: Env)
    requires DistinctTokens(env.tokens) && HistoryOk(txs, env.wallet)
    requires s.openingUsd.Some? && multiset(read) == multiset(Transfers(txs))
    ensures var g := AfterAll(h, txs, env.wallet);
            var after := Indexed(s, read, fired, g, env);
            Score(after, g, env)
            == Score(s, h, env) + TotalGain(txs, env) + TokensUsd(Revealed(h, s.seen, after.seen, env), env.tokens, env.prices)
  {
    PnlChange(s, h, txs, read, fired, env);
    HiddenIsRevealed(s, h, txs, read, fired, env);
  }

  /**
    * No profit at constant prices: over any mix of outside money, lending moves and swaps of priced tokens, the score
    * changes by minus what the swaps lost, plus the value of tokens held from before and read now for the first time.
    */
  lemma NoProfitAtConstantPrices(s: Totals, h: Holdings, txs: seq<Tx>, read: seq<Transfer>, fired: set<string>, env: Env)
    requires DistinctTokens(env.tokens) && HistoryOk(txs, env.wallet)
    requires s.openingUsd.Some? && multiset(read) == multiset(Transfers(txs))
    requires forall i :: 0 <= i < |txs| ==> Scored(txs[i], env)
    ensures var g := AfterAll(h, txs, env.wallet);
            var after := Indexed(s, read, fired, g, env);
            var shown := TokensUsd(Revealed(h, s.seen, after.seen, env), env.tokens, env.prices);
            && Score(after, g, env) == Score(s, h, env) - TotalLoss(txs, env) + shown
            && TotalLoss(txs, env) >= 0.0
  {
    PnlExactly(s, h, txs, read, fired, env);
    GainIsLoss(txs, env);
  }

  lemma {:induction false} NothingHeldIsNothing(amounts: map<Address, int>, tokens: seq<Token>, prices: map<string, real>)
    requires forall i :: 0 <= i < |tokens| ==> Get(amounts, tokens[i].id) == 0
    ensures TokensUsd(amounts, tokens, prices) == 0.0
  {
    if tokens != [] {
      NothingHeldIsNothing(amounts, tokens[..|tokens| - 1], prices);
    }
  }

  /** Nothing is held short, and no price is negative. */
  ghost predicate NoNegatives(h: Holdings, env: Env) {
    && (forall id :: id in h.tokens ==> h.tokens[id] >= 0)
    && (forall f :: f in env.prices ==> env.prices[f] >= 0.0)
  }

  lemma UsdPositive(t: Token, amount: int, prices: map<string, real>)
    requires amount >= 0 && forall f :: f in prices ==> prices[f] >= 0.0
    ensures Usd(t, amount, prices) >= 0.0
    ensures Usd(t, amount, prices) > 0.0 <==> amount > 0 && PerUnit(t, prices) > 0.0
  {
    var u := PerUnit(t, prices);
    assert u >= 0.0;
    if amount > 0 && u > 0.0 {
      assert amount as real * u > 0.0;
    } else {
      assert amount as real * u == 0.0;
    }
  }

  /** A token with a price that is held. */
  predicate Worth(amounts: map<Address, int>, t: Token, prices: map<string, real>) {
    Get(amounts, t.id) > 0 && PerUnit(t, prices) > 0.0
  }

  lemma {:induction false} TokensUsdPositive(amounts: map<Address, int>, tokens: seq<Token>, prices: map<string, real>)
    requires (forall id :: id in amounts ==> amounts[id] >= 0) && (forall f :: f in prices ==> prices[f] >= 0.0)
    ensures TokensUsd(amounts, tokens, prices) >= 0.0
    ensures TokensUsd(amounts, tokens, prices) > 0.0 <==> exists i :: 0 <= i < |tokens| && Worth(amounts, tokens[i], prices)
  {
    if tokens != [] {
      var n := |tokens| - 1;
      TokensUsdPositive(amounts, tokens[..n], prices);
      UsdPositive(tokens[n], Get(amounts, tokens[n].id), prices);
      if i :| 0 <= i < n && Worth(amounts, tokens[..n][i], prices) {
        assert Worth(amounts, tokens[i], prices);
      }
      if i :| 0 <= i < |tokens| && Worth(amounts, tokens[i], prices) {
        assert i < n ==> Worth(amounts, tokens[..n][i], prices);
      }
    }
  }

  /** A token held, priced, not read at the scoring before, and moved since. */
  ghost predicate ShowsUp(h: Holdings, before: set<Address>, after: set<Address>, t: Token, env: Env) {
    t.id !in env.builtIn && t.id !in before && t.id in after && Worth(h.tokens, t, env.prices)
  }

  /** Something is revealed exactly when there is such a token, and it never counts against the score. */
  lemma RevealedExactly(h: Holdings, before: set<Address>, after: set<Address>, env: Env)
    requires NoNegatives(h, env)
    ensures TokensUsd(Revealed(h, before, after, env), env.tokens, env.prices) >= 0.0
    ensures TokensUsd(Revealed(h, before, after, env), env.tokens, env.prices) > 0.0
       <==> exists i :: 0 <= i < |env.tokens| && ShowsUp(h, before, after, env.tokens[i], env)
  {
    var shown := Revealed(h, before, after, env);
    TokensUsdPositive(shown, env.tokens, env.prices);
    forall i | 0 <= i < |env.tokens| ensures Worth(shown, env.tokens[i], env.prices) <==> ShowsUp(h, before, after, env.tokens[i], env) {
    }
  }

  /**
    * So the score rises exactly when what shows up is worth more than the transactions lost. If they gained nothing, a rise
    * takes a token that shows up; if they came out even, such a token is all it takes.
    */
  lemma RisesExactly(s: Totals, h: Holdings, txs: seq<Tx>, read: seq<Transfer>, fired: set<string>, env: Env)
    requires DistinctTokens(env.tokens) && HistoryOk(txs, env.wallet) && NoNegatives(h, env)
    requires s.openingUsd.Some? && multiset(read) == multiset(Transfers(txs))
    ensures var g := AfterAll(h, txs, env.wallet);
            var after := Indexed(s, read, fired, g, env);
            var rises := Score(after, g, env) > Score(s, h, env);
            var shows := exists i :: 0 <= i < |env.tokens| && ShowsUp(h, s.seen, after.seen, env.tokens[i], env);
            && (rises <==> TokensUsd(Revealed(h, s.seen, after.seen, env), env.tokens, env.prices) > -TotalGain(txs, env))
            && (TotalGain(txs, env) <= 0.0 && rises ==> shows)
            && (TotalGain(txs, env) == 0.0 ==> (rises <==> shows))
  {
    var after := Indexed(s, read, fired, AfterAll(h, txs, env.wallet), env);
    PnlExactly(s, h, txs, read, fired, env);
    RevealedExactly(h, s.seen, after.seen, env);
  }

  /** Every scored token that is held is one the indexer reads. */
  ghost predicate AllRead(h: Holdings, seen: set<Address>, env: Env) {
    forall id :: Find(env.tokens, id).Some? && Get(h.tokens, id) != 0 ==> id in env.builtIn || id in seen
  }

  /** Once every token held is one the indexer has read, that stays so, and the score changes by the gains alone. */
  lemma PnlIsGains(s: Totals, h: Holdings, txs: seq<Tx>, read: seq<Transfer>, fired: set<string>, env: Env)
    requires DistinctTokens(env.tokens) && HistoryOk(txs, env.wallet)
    requires s.openingUsd.Some? && multiset(read) == multiset(Transfers(txs))
    requires AllRead(h, s.seen, env)
    ensures var g := AfterAll(h, txs, env.wallet);
            var after := Indexed(s, read, fired, g, env);
            && Score(after, g, env) == Score(s, h, env) + TotalGain(txs, env)
            && AllRead(g, after.seen, env)
  {
    var g := AfterAll(h, txs, env.wallet);
    var after := Indexed(s, read, fired, g, env);
    PnlExactly(s, h, txs, read, fired, env);
    forall i | 0 <= i < |env.tokens| ensures Get(Revealed(h, s.seen, after.seen, env), env.tokens[i].id) == 0 {
      FindListed(env.tokens, i);
    }
    NothingHeldIsNothing(Revealed(h, s.seen, after.seen, env), env.tokens, env.prices);
    TransferOrderIsIrrelevant(read, Transfers(txs), At(env));
    forall id | Find(env.tokens, id).Some? && Get(g.tokens, id) != 0 ensures id in env.builtIn || id in after.seen {
      if id !in after.seen {
        Unmoved(h, txs, id, env);
      }
    }
  }

  /**
    * One transaction of whatever kind, once all is read: if it moved two tokens inside the wallet and took something of value
    * out, the score rises exactly when the lending position gained more than the swap lost to the oracle; any other raises it
    * exactly when what came in, with the lending position's change, is more than what went out.
    */
  lemma OneTxRisesExactly(s: Totals, h: Holdings, tx: Tx, read: seq<Transfer>, fired: set<string>, env: Env)
    requires DistinctTokens(env.tokens) && TxOk(tx, env.wallet)
    requires s.openingUsd.Some? && multiset(read) == multiset(tx.transfers)
    requires AllRead(h, s.seen, env)
    ensures var g := AfterTx(h, tx, env.wallet);
            var after := Indexed(s, read, fired, g, env);
            var leg := LegOf(tx, env);
            var was, pnl := Score(s, h, env), Score(after, g, env);
            && pnl - was == (if |leg.tokens| >= 2 && leg.outUsd > 0.0 then LendingChange(tx) - Loss(leg) else leg.inUsd + LendingChange(tx) - leg.outUsd)
            && (pnl > was <==>
                if |leg.tokens| >= 2 && leg.outUsd > 0.0 then LendingChange(tx) > Loss(leg) else leg.inUsd + LendingChange(tx) > leg.outUsd)
  {
    assert Transfers([tx]) == tx.transfers;
    assert TotalGain([tx], env) == Gain(tx, env);
    assert AfterAll(h, [tx], env.wallet) == AfterTx(h, tx, env.wallet);
    PnlIsGains(s, h, [tx], read, fired, env);
  }

  /** The score never rises while every token held is one the indexer has read, over outside money, lending and priced swaps. */
  lemma NeverRisesWhenAllWasRead(s: Totals, h: Holdings, txs: seq<Tx>, read: seq<Transfer>, fired: set<string>, env: Env)
    requires DistinctTokens(env.tokens) && HistoryOk(txs, env.wallet)
    requires s.openingUsd.Some? && multiset(read) == multiset(Transfers(txs))
    requires forall i :: 0 <= i < |txs| ==> Scored(txs[i], env)
    requires AllRead(h, s.seen, env)
    ensures var g := AfterAll(h, txs, env.wallet);
            var after := Indexed(s, read, fired, g, env);
            && Score(after, g, env) == Score(s, h, env) - TotalLoss(txs, env) <= Score(s, h, env)
            && AllRead(g, after.seen, env)
  {
    PnlIsGains(s, h, txs, read, fired, env);
    GainIsLoss(txs, env);
  }

  /** What one run scores: the transactions since the run before, their transfers as read, and those the autopilot fired. */
  datatype Round = Round(txs: seq<Tx>, transfers: seq<Transfer>, fired: set<string>)

  ghost predicate RoundOk(r: Round, env: Env) {
    HistoryOk(r.txs, env.wallet) && multiset(r.transfers) == multiset(Transfers(r.txs))
  }

  ghost function ScoredThrough(s: Totals, h: Holdings, runs: seq<Round>, env: Env): (Totals, Holdings) {
    if runs == [] then (s, h)
    else
      var (t, g) := ScoredThrough(s, h, runs[..|runs| - 1], env);
      var r := runs[|runs| - 1];
      (Indexed(t, r.transfers, r.fired, AfterAll(g, r.txs, env.wallet), env), AfterAll(g, r.txs, env.wallet))
  }

  function GainOver(runs: seq<Round>, env: Env): real {
    if runs == [] then 0.0 else GainOver(runs[..|runs| - 1], env) + TotalGain(runs[|runs| - 1].txs, env)
  }

  /** However many runs score them, the transactions change the score by their gains. */
  lemma {:induction false} ScoreIsItsGains(s: Totals, h: Holdings, runs: seq<Round>, env: Env)
    requires DistinctTokens(env.tokens) && s.openingUsd.Some? && AllRead(h, s.seen, env)
    requires forall i :: 0 <= i < |runs| ==> RoundOk(runs[i], env)
    ensures var (t, g) := ScoredThrough(s, h, runs, env);
            && t.openingUsd.Some? && AllRead(g, t.seen, env)
            && Score(t, g, env) == Score(s, h, env) + GainOver(runs, env)
  {
    if runs != [] {
      var front, r := runs[..|runs| - 1], runs[|runs| - 1];
      assert forall i :: 0 <= i < |front| ==> front[i] == runs[i];
      ScoreIsItsGains(s, h, front, env);
      var (t, g) := ScoredThrough(s, h, front, env);
      assert RoundOk(r, env);
      PnlIsGains(t, g, r.txs, r.transfers, r.fired, env);
    }
  }

  ghost predicate RoundScored(r: Round, env: Env) {
    forall i :: 0 <= i < |r.txs| ==> Scored(r.txs[i], env)
  }

  lemma {:induction false} NoGainOver(runs: seq<Round>, env: Env)
    requires forall i :: 0 <= i < |runs| ==> RoundScored(runs[i], env)
    ensures GainOver(runs, env) <= 0.0
  {
    if runs != [] {
      NoGainOver(runs[..|runs| - 1], env);
      assert RoundScored(runs[|runs| - 1], env);
      GainIsLoss(runs[|runs| - 1].txs, env);
    }
  }

  /**
    * From a wallet's first scoring on, however many runs follow at those prices: its score is never above a dollar, whatever
    * it held and whatever came in before, as long as what it held then was read.
    */
  lemma NeverAboveADollar(prev: Totals, transfers: seq<Transfer>, fired: set<string>, h: Holdings, runs: seq<Round>, env: Env)
    requires DistinctTokens(env.tokens) && prev.openingUsd.None?
    requires AllRead(h, Indexed(prev, transfers, fired, h, env).seen, env)
    requires forall i :: 0 <= i < |runs| ==> RoundOk(runs[i], env) && RoundScored(runs[i], env)
    ensures var (t, g) := ScoredThrough(Indexed(prev, transfers, fired, h, env), h, runs, env);
            t.openingUsd.Some? && AllRead(g, t.seen, env) && Score(t, g, env) <= 1.0
  {
    FirstScoringIsNoProfit(prev, transfers, fired, h, env);
    ScoreIsItsGains(Indexed(prev, transfers, fired, h, env), h, runs, env);
    NoGainOver(runs, env);
  }

  // ---- Where the score is off: four inputs ----

  /** A withdrawal and a swap of it in one transaction, as the router's swap of supplied USDC makes it. */
  function WithdrawSwap(hash: string, usdc: Address, pool: Address, aggregator: Address, bought: Address, wallet: Address, w: nat, x: nat): Tx {
    Tx(hash, [Transfer(hash, usdc, Some(pool), wallet, w), Transfer(hash, usdc, Some(wallet), aggregator, w), Transfer(hash, bought, Some(aggregator), wallet, x)], 0 - w, 0)
  }

  function PlainSwap(hash: string, usdc: Address, aggregator: Address, bought: Address, wallet: Address, w: nat, x: nat): Tx {
    Tx(hash, [Transfer(hash, usdc, Some(wallet), aggregator, w), Transfer(hash, bought, Some(aggregator), wallet, x)], 0, 0)
  }

  /** Someone else's money: a classic account, whose address starts with G (M when muxed), or another smart wallet. */
  predicate OutsideAddress(address: Address, env: Env) {
    (|address| > 0 && (address[0] == 'G' || address[0] == 'M')) || address in env.smartWallets
  }

  /** Any other contract. */
  predicate Protocol(address: Address, env: Env) {
    !OutsideAddress(address, env)
  }

  /** Two protocols, and USDC at its dollar with 7 decimals. */
  predicate Venue(usdc: Token, bought: Token, pool: Address, aggregator: Address, env: Env) {
    && usdc.feed == None && usdc.decimals == 7
    && Find(env.tokens, usdc.id) == Some(usdc) && Find(env.tokens, bought.id) == Some(bought) && usdc.id != bought.id
    && pool != env.wallet && aggregator != env.wallet
    && Protocol(pool, env) && Protocol(aggregator, env)
  }

  lemma UsdcIsADollar(usdc: Token, w: int, prices: map<string, real>)
    requires usdc.feed == None && usdc.decimals == 7
    ensures Usd(usdc, w, prices) == LendingUsd(w)
  {
    assert Scale(7) == 10000000.0;
    assert PerUnit(usdc, prices) == 1.0 / 10000000.0;
  }

  lemma TallyStep(transfers: seq<Transfer>, e: Transfer, env: Env)
    ensures TallyOf(transfers + [e], env) == AddEffect(TallyOf(transfers, env), e.token, Classify(e, env))
  {
    assert (transfers + [e])[..|transfers|] == transfers;
  }

  lemma PaidOut(hash: string, t: Token, to: Address, env: Env, n: nat)
    requires Find(env.tokens, t.id) == Some(t) && to != env.wallet && Protocol(to, env)
    ensures Classify(Transfer(hash, t.id, Some(env.wallet), to, n), env) == Inside(Move(hash, t.id, false, Usd(t, n, env.prices)))
  {
  }

  lemma PaidIn(hash: string, t: Token, from: Address, env: Env, n: nat)
    requires Find(env.tokens, t.id) == Some(t) && from != env.wallet && Protocol(from, env)
    ensures Classify(Transfer(hash, t.id, Some(from), env.wallet, n), env) == Inside(Move(hash, t.id, true, Usd(t, n, env.prices)))
  {
  }

  lemma TwoMoves(a: Transfer, b: Transfer, m: Move, n: Move, env: Env)
    requires Classify(a, env) == Inside(m) && Classify(b, env) == Inside(n)
    ensures TallyOf([a, b], env).legs == AddMove(AddMove(map[], m), n)
  {
    TallyStep([], a, env);
    TallyStep([a], b, env);
    assert [] + [a] == [a] && [a] + [b] == [a, b];
  }

  lemma SwapLeg(hash: string, sold: Token, bought: Token, aggregator: Address, env: Env, n: nat, x: nat)
    requires Find(env.tokens, sold.id) == Some(sold) && Find(env.tokens, bought.id) == Some(bought) && sold.id != bought.id
    requires aggregator != env.wallet && Protocol(aggregator, env)
    ensures LegOf(PlainSwap(hash, sold.id, aggregator, bought.id, env.wallet, n, x), env)
         == Leg(Usd(sold, n, env.prices), Usd(bought, x, env.prices), {sold.id, bought.id})
  {
    var a, b := Transfer(hash, sold.id, Some(env.wallet), aggregator, n), Transfer(hash, bought.id, Some(aggregator), env.wallet, x);
    PaidOut(hash, sold, aggregator, env, n);
    PaidIn(hash, bought, aggregator, env, x);
    TwoMoves(a, b, Move(hash, sold.id, false, Usd(sold, n, env.prices)), Move(hash, bought.id, true, Usd(bought, x, env.prices)), env);
  }

  lemma WithdrawSwapLeg(hash: string, usdc: Token, bought: Token, pool: Address, aggregator: Address, env: Env, w: nat, x: nat)
    requires Venue(usdc, bought, pool, aggregator, env)
    ensures LegOf(WithdrawSwap(hash, usdc.id, pool, aggregator, bought.id, env.wallet, w, x), env)
         == Leg(LendingUsd(w), LendingUsd(w) + Usd(bought, x, env.prices), {usdc.id, bought.id})
  {
    UsdcIsADollar(usdc, w, env.prices);
    var a, b := Transfer(hash, usdc.id, Some(pool), env.wallet, w), Transfer(hash, usdc.id, Some(env.wallet), aggregator, w);
    var c := Transfer(hash, bought.id, Some(aggregator), env.wallet, x);
    TallyStep([], a, env);
    TallyStep([a], b, env);
    assert [a] + [b] == [a, b] && [] + [a] == [a];
    assert TallyOf([a], env).legs[hash] == Leg(0.0, LendingUsd(w), {usdc.id});
    assert TallyOf([a, b], env).legs[hash] == Leg(LendingUsd(w), LendingUsd(w), {usdc.id});
    TallyStep([a, b], c, env);
    assert [a, b] + [c] == [a, b, c];
  }

  /** The score after one more transaction has been read. */
  ghost function ScoreAfter(s: Totals, h: Holdings, tx: Tx, fired: set<string>, env: Env): real {
    var g := AfterTx(h, tx, env.wallet);
    Score(Indexed(s, tx.transfers, fired, g, env), g, env)
  }

  /** A wallet that was scored before and holds only what the indexer has read. */
  ghost predicate Known(s: Totals, h: Holdings, env: Env) {
    DistinctTokens(env.tokens) && s.openingUsd.Some? && AllRead(h, s.seen, env)
  }

  lemma PlainSwapCosts(s: Totals, h: Holdings, hash: string, usdc: Token, bought: Token, pool: Address, aggregator: Address, fired: set<string>, env: Env, w: nat, x: nat)
    requires Venue(usdc, bought, pool, aggregator, env) && w > 0 && Known(s, h, env)
    ensures var paid, got := LendingUsd(w), Usd(bought, x, env.prices);
            ScoreAfter(s, h, PlainSwap(hash, usdc.id, aggregator, bought.id, env.wallet, w, x), fired, env)
            == Score(s, h, env) - (if paid > got then paid - got else 0.0)
  {
    UsdcIsADollar(usdc, w, env.prices);
    SwapLeg(hash, usdc, bought, aggregator, env, w, x);
    assert |{usdc.id, bought.id}| == 2;
    var tx := PlainSwap(hash, usdc.id, aggregator, bought.id, env.wallet, w, x);
    OneTxRisesExactly(s, h, tx, tx.transfers, fired, env);
  }

  lemma WithdrawSwapCosts(s: Totals, h: Holdings, hash: string, usdc: Token, bought: Token, pool: Address, aggregator: Address, fired: set<string>, env: Env, w: nat, x: nat)
    requires Venue(usdc, bought, pool, aggregator, env) && w > 0 && Usd(bought, x, env.prices) >= 0.0 && Known(s, h, env)
    ensures ScoreAfter(s, h, WithdrawSwap(hash, usdc.id, pool, aggregator, bought.id, env.wallet, w, x), fired, env)
         == Score(s, h, env) - LendingUsd(w) < Score(s, h, env)
  {
    WithdrawSwapLeg(hash, usdc, bought, pool, aggregator, env, w, x);
    LendingOfSum(w, 0 - w);
    assert |{usdc.id, bought.id}| == 2;
    var tx := WithdrawSwap(hash, usdc.id, pool, aggregator, bought.id, env.wallet, w, x);
    OneTxRisesExactly(s, h, tx, tx.transfers, fired, env);
  }

  /**
    * A withdrawal swapped in the same transaction costs the score all of what was withdrawn, however good the fill; the same
    * swap of idle USDC costs only what the fill lost.
    */
  lemma WithdrawSwapShiftsTheScore(s: Totals, h: Holdings, hash: string, usdc: Token, bought: Token, pool: Address, aggregator: Address, fired: set<string>, env: Env, w: nat, x: nat)
    requires Venue(usdc, bought, pool, aggregator, env) && w > 0 && Usd(bought, x, env.prices) >= 0.0 && Known(s, h, env)
    ensures ScoreAfter(s, h, WithdrawSwap(hash, usdc.id, pool, aggregator, bought.id, env.wallet, w, x), fired, env)
         == Score(s, h, env) - LendingUsd(w) < Score(s, h, env)
    ensures var paid, got := LendingUsd(w), Usd(bought, x, env.prices);
            ScoreAfter(s, h, PlainSwap(hash, usdc.id, aggregator, bought.id, env.wallet, w, x), fired, env)
            == Score(s, h, env) - (if paid > got then paid - got else 0.0)
  {
    WithdrawSwapCosts(s, h, hash, usdc, bought, pool, aggregator, fired, env, w, x);
    PlainSwapCosts(s, h, hash, usdc, bought, pool, aggregator, fired, env, w, x);
  }

  /** What a contract other than a smart wallet pays in, with nothing going out and no position to show for it, is all profit. */
  lemma ProtocolPaymentIsProfit(s: Totals, h: Holdings, hash: string, usdc: Token, contract: Address, fired: set<string>, env: Env, w: nat)
    requires usdc.feed == None && usdc.decimals == 7 && Find(env.tokens, usdc.id) == Some(usdc)
    requires contract != env.wallet && Protocol(contract, env) && w > 0 && Known(s, h, env)
    ensures var tx := Tx(hash, [Transfer(hash, usdc.id, Some(contract), env.wallet, w)], 0, 0);
            TxOk(tx, env.wallet) && !Scored(tx, env) && ScoreAfter(s, h, tx, fired, env) == Score(s, h, env) + LendingUsd(w) > Score(s, h, env)
  {
    var e := Transfer(hash, usdc.id, Some(contract), env.wallet, w);
    UsdcIsADollar(usdc, w, env.prices);
    TallyStep([], e, env);
    assert [] + [e] == [e];
    assert LegOf(Tx(hash, [e], 0, 0), env) == Leg(0.0, LendingUsd(w), {usdc.id});
    OneTxRisesExactly(s, h, Tx(hash, [e], 0, 0), [e], fired, env);
  }

  /** A swap that sells a token without a price counts everything it buys as profit. */
  lemma UnpricedSwapIsProfit(s: Totals, h: Holdings, hash: string, sold: Token, bought: Token, aggregator: Address, fired: set<string>, env: Env, n: nat, x: nat)
    requires Find(env.tokens, sold.id) == Some(sold) && Find(env.tokens, bought.id) == Some(bought) && sold.id != bought.id
    requires PriceOf(sold, env.prices).None? && aggregator != env.wallet && Protocol(aggregator, env) && Known(s, h, env)
    ensures var tx := PlainSwap(hash, sold.id, aggregator, bought.id, env.wallet, n, x);
            TxOk(tx, env.wallet) && Swap(tx, env) && ScoreAfter(s, h, tx, fired, env) == Score(s, h, env) + Usd(bought, x, env.prices)
  {
    SwapLeg(hash, sold, bought, aggregator, env, n, x);
    assert Usd(sold, n, env.prices) == 0.0;
    var tx := PlainSwap(hash, sold.id, aggregator, bought.id, env.wallet, n, x);
    assert |{sold.id, bought.id}| == 2;
    OneTxRisesExactly(s, h, tx, tx.transfers, fired, env);
  }

  lemma OneOutside(e: Transfer, incoming: bool, usd: real, env: Env)
    requires Classify(e, env) == Outside(incoming, usd)
    ensures TallyOf([e], env) == Tally(if incoming then usd else 0.0, if incoming then 0.0 else usd, map[], {e.token})
    ensures LegOf(Tx(e.tx, [e], 0, 0), env) == NO_LEG
  {
    TallyStep([], e, env);
    assert [] + [e] == [e];
  }

  lemma SentAway(hash: string, t: Token, to: Address, env: Env)
    requires Find(env.tokens, t.id) == Some(t) && to != env.wallet && OutsideAddress(to, env)
    ensures var tx := Tx(hash, [Transfer(hash, t.id, Some(env.wallet), to, 1)], 0, 0);
            && TallyOf(tx.transfers, env).seen == {t.id} && LegOf(tx, env) == NO_LEG
            && HistoryOk([tx], env.wallet) && Transfers([tx]) == tx.transfers && TotalGain([tx], env) == 0.0
  {
    var e := Transfer(hash, t.id, Some(env.wallet), to, 1);
    OneOutside(e, false, Usd(t, 1, env.prices), env);
    assert Transfers([Tx(hash, [e], 0, 0)]) == [] + [e];
  }

  /** Transactions that gain nothing and show the one token held raise the score by its worth. */
  lemma AllShown(s: Totals, h: Holdings, txs: seq<Tx>, id: Address, usd: real, fired: set<string>, env: Env)
    requires DistinctTokens(env.tokens) && HistoryOk(txs, env.wallet) && s.openingUsd.Some? && TotalGain(txs, env) == 0.0
    requires id !in env.builtIn && id !in s.seen && h.tokens.Keys == {id} && TallyOf(Transfers(txs), env).seen == {id}
    requires TokensUsd(h.tokens, env.tokens, env.prices) == usd
    ensures var g := AfterAll(h, txs, env.wallet);
            Score(Indexed(s, Transfers(txs), fired, g, env), g, env) == Score(s, h, env) + usd
  {
    var after := Indexed(s, Transfers(txs), fired, AfterAll(h, txs, env.wallet), env);
    PnlExactly(s, h, txs, Transfers(txs), fired, env);
    assert after.seen == s.seen + {id};
    assert Revealed(h, s.seen, after.seen, env) == h.tokens;
  }

  /** A token that is not built in and had never moved: sending one unit of it away turns all of it into profit. */
  lemma HiddenTokenIsProfit(s: Totals, h: Holdings, hash: string, t: Token, to: Address, fired: set<string>, env: Env)
    requires DistinctTokens(env.tokens) && Find(env.tokens, t.id) == Some(t) && s.openingUsd.Some?
    requires t.id !in env.builtIn && t.id !in s.seen && h.tokens == map[t.id := Get(h.tokens, t.id)]
    requires to != env.wallet && OutsideAddress(to, env)
    ensures var txs := [Tx(hash, [Transfer(hash, t.id, Some(env.wallet), to, 1)], 0, 0)];
            var g := AfterAll(h, txs, env.wallet);
            var after := Indexed(s, Transfers(txs), fired, g, env);
            Score(after, g, env) == Score(s, h, env) + Usd(t, Get(h.tokens, t.id), env.prices)
  {
    var tx := Tx(hash, [Transfer(hash, t.id, Some(env.wallet), to, 1)], 0, 0);
    SentAway(hash, t, to, env);
    OneTokenUsd(h.tokens, t, Get(h.tokens, t.id), env);
    AllShown(s, h, [tx], t.id, Usd(t, Get(h.tokens, t.id), env.prices), fired, env);
  }

  lemma OneTokenUsd(amounts: map<Address, int>, t: Token, n: int, env: Env)
    requires DistinctTokens(env.tokens) && Find(env.tokens, t.id) == Some(t) && amounts == map[t.id := n]
    ensures TokensUsd(amounts, env.tokens, env.prices) == Usd(t, n, env.prices)
  {
    assert amounts == Shift(map[], t.id, n);
    ShiftedValue(map[], t.id, n, env.tokens, env.prices);
    NothingHeldIsNothing(map[], env.tokens, env.prices);
  }
}
