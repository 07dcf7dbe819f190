/**
  * What a run makes of each transfer (packages/core/src/competition.ts:127-181, keeper/scripts/competition.ts:174-204), written
  * out on addresses, amounts and prices: whose money it was, what it was worth, and which transactions were manual.
  */
module ScoringMeaning {
  import opened Basics
  import opened RouterMath
  import opened Scoring
  import opened ScoringRuns

  // ---- What a transfer is ----

  predicate Listed(e: Transfer, env: Env) {
    exists i :: 0 <= i < |env.tokens| && env.tokens[i].id == e.token
  }

  /** The wallet is on one side, and only one. */
  predicate Incoming(e: Transfer, env: Env) {
    e.to == env.wallet && e.from != Some(env.wallet)
  }

  predicate Outgoing(e: Transfer, env: Env) {
    e.to != env.wallet && e.from == Some(env.wallet)
  }

  /** Money from outside: a mint, or a transfer from a classic account or another smart wallet. */
  predicate MoneyIn(e: Transfer, env: Env) {
    Listed(e, env) && Incoming(e, env) && (e.from.None? || OutsideAddress(e.from.value, env))
  }

  predicate MoneyOut(e: Transfer, env: Env) {
    Listed(e, env) && Outgoing(e, env) && OutsideAddress(e.to, env)
  }

  /** A move inside the wallet's own money: from or to a protocol. */
  predicate FromProtocol(e: Transfer, env: Env) {
    Listed(e, env) && Incoming(e, env) && e.from.Some? && Protocol(e.from.value, env)
  }

  predicate ToProtocol(e: Transfer, env: Env) {
    Listed(e, env) && Outgoing(e, env) && Protocol(e.to, env)
  }

  /** Dollars at the token's price: one without a feed is a dollar, one whose feed has no price is nothing. */
  function Dollars(t: Token, amount: nat, prices: map<string, real>): real {
    var price := if t.feed.None? then 1.0 else if t.feed.value in prices then prices[t.feed.value] else 0.0;
    Pow10Positive(t.decimals);
    amount as real / Pow10(t.decimals) as real * price
  }

  /** What it was worth, nothing for a token that is not listed. */
  function WorthOf(e: Transfer, env: Env): real {
    match Find(env.tokens, e.token)
    case Some(t) => Dollars(t, e.amount, env.prices)
    case None => 0.0
  }

  lemma DollarsAre(t: Token, amount: nat, prices: map<string, real>)
    ensures Usd(t, amount, prices) == Dollars(t, amount, prices)
  {
    if PriceOf(t, prices).Some? {
      PricedUsd(t, amount, PriceOf(t, prices).value, prices);
    } else {
      UnpricedUsd(t, amount, prices);
    }
  }

  lemma {:induction false} ListedIsFound(tokens: seq<Token>, id: Address)
    ensures Find(tokens, id).Some? <==> exists i :: 0 <= i < |tokens| && tokens[i].id == id
  {
    if tokens != [] {
      var front := tokens[..|tokens| - 1];
      ListedIsFound(front, id);
      if i :| 0 <= i < |front| && front[i].id == id {
        assert tokens[i].id == id;
      }
      if i :| 0 <= i < |tokens| && tokens[i].id == id {
        assert i < |front| ==> front[i].id == id;
      }
    }
  }

  /** Every transfer is money from outside, money to outside, a move inside, or nothing to the score. */
  lemma ClassifiedAs(e: Transfer, env: Env)
    requires e.to == env.wallet || e.from == Some(env.wallet)
    ensures Classify(e, env)
         == if MoneyIn(e, env) then Outside(true, WorthOf(e, env))
            else if MoneyOut(e, env) then Outside(false, WorthOf(e, env))
            else if FromProtocol(e, env) then Inside(Move(e.tx, e.token, true, WorthOf(e, env)))
            else if ToProtocol(e, env) then Inside(Move(e.tx, e.token, false, WorthOf(e, env)))
            else Skip
  {
    ListedIsFound(env.tokens, e.token);
    match Find(env.tokens, e.token)
    case Some(t) => DollarsAre(t, e.amount, env.prices);
    case None =>
  }

  // ---- What a run adds up ----

  /** The worth of the transfers of one kind. */
  ghost function Total(transfers: seq<Transfer>, kind: (Transfer, Env) -> bool, env: Env): real {
    if transfers == [] then 0.0
    else
      var e := transfers[|transfers| - 1];
      Total(transfers[..|transfers| - 1], kind, env) + (if kind(e, env) then WorthOf(e, env) else 0.0)
  }

  predicate Moves(e: Transfer, env: Env) {
    Listed(e, env) && (Incoming(e, env) || Outgoing(e, env))
  }

  predicate InsideMove(e: Transfer, env: Env) {
    FromProtocol(e, env) || ToProtocol(e, env)
  }

  ghost predicate Touches(transfers: seq<Transfer>, wallet: Address) {
    forall i :: 0 <= i < |transfers| ==> transfers[i].to == wallet || transfers[i].from == Some(wallet)
  }

  /** The tokens of the transfers of one kind. */
  function TokensOf(transfers: seq<Transfer>, kind: (Transfer, Env) -> bool, env: Env): set<Address> {
    set i | 0 <= i < |transfers| && kind(transfers[i], env) :: transfers[i].token
  }

  lemma TokensOfOneMore(transfers: seq<Transfer>, e: Transfer, kind: (Transfer, Env) -> bool, env: Env)
    ensures TokensOf(transfers + [e], kind, env) == TokensOf(transfers, kind, env) + (if kind(e, env) then {e.token} else {})
  {
    var all := transfers + [e];
    forall id | id in TokensOf(transfers, kind, env) + (if kind(e, env) then {e.token} else {}) ensures id in TokensOf(all, kind, env) {
      if id in TokensOf(transfers, kind, env) {
        var i :| 0 <= i < |transfers| && kind(transfers[i], env) && transfers[i].token == id;
        assert all[i] == transfers[i];
      } else {
        assert all[|transfers|] == e;
      }
    }
  }

  /** Outside money is what came from outside and went there; the tokens seen are those that moved. */
  lemma {:induction false} TallyIs(transfers: seq<Transfer>, env: Env)
    requires Touches(transfers, env.wallet)
    ensures var t := TallyOf(transfers, env);
            && t.inUsd == Total(transfers, MoneyIn, env) && t.outUsd == Total(transfers, MoneyOut, env)
            && t.seen == TokensOf(transfers, Moves, env)
  {
    if transfers != [] {
      var front, e := transfers[..|transfers| - 1], transfers[|transfers| - 1];
      TallyIs(front, env);
      ClassifiedAs(e, env);
      TokensOfOneMore(front, e, Moves, env);
      assert transfers == front + [e];
      EffectOnTotals(TallyOf(front, env), e, env);
    }
  }

  lemma EffectOnTotals(t: Tally, e: Transfer, env: Env)
    requires e.to == env.wallet || e.from == Some(env.wallet)
    ensures var u := AddEffect(t, e.token, Classify(e, env));
            && u.inUsd == t.inUsd + (if MoneyIn(e, env) then WorthOf(e, env) else 0.0)
            && u.outUsd == t.outUsd + (if MoneyOut(e, env) then WorthOf(e, env) else 0.0)
            && u.seen == t.seen + (if Moves(e, env) then {e.token} else {})
  {
    ClassifiedAs(e, env);
  }

  lemma EffectOnLeg(t: Tally, e: Transfer, env: Env)
    requires e.to == env.wallet || e.from == Some(env.wallet)
    ensures var u := AddEffect(t, e.token, Classify(e, env));
            var leg := if e.tx in t.legs then t.legs[e.tx] else NO_LEG;
            && u.legs.Keys == t.legs.Keys + (if InsideMove(e, env) then {e.tx} else {})
            && (forall tx :: tx in t.legs && tx != e.tx ==> u.legs[tx] == t.legs[tx])
            && (if e.tx in u.legs then u.legs[e.tx] else NO_LEG)
               == Leg(leg.outUsd + (if ToProtocol(e, env) then WorthOf(e, env) else 0.0), leg.inUsd + (if FromProtocol(e, env) then WorthOf(e, env) else 0.0),
                      leg.tokens + (if InsideMove(e, env) then {e.token} else {}))
  {
    ClassifiedAs(e, env);
  }

  /** What a transaction moved inside: the worth of what went to protocols, of what came from them, and the tokens of both. */
  lemma {:induction false} LegIs(tx: Tx, env: Env)
    requires TxOk(tx, env.wallet)
    ensures LegOf(tx, env) == Leg(Total(tx.transfers, ToProtocol, env), Total(tx.transfers, FromProtocol, env), TokensOf(tx.transfers, InsideMove, env))
    decreases |tx.transfers|
  {
    if tx.transfers != [] {
      var front, e := tx.(transfers := tx.transfers[..|tx.transfers| - 1]), tx.transfers[|tx.transfers| - 1];
      assert TxOk(front, env.wallet);
      LegIs(front, env);
      EffectOnLeg(TallyOf(front.transfers, env), e, env);
      TokensOfOneMore(front.transfers, e, InsideMove, env);
      assert tx.transfers == front.transfers + [e];
    }
  }

  // ---- Manual transactions ----

  /** The transaction moved two different tokens between the wallet and protocols. */
  ghost predicate MovedTwo(tx: Tx, env: Env) {
    exists i, j :: && 0 <= i < |tx.transfers| && 0 <= j < |tx.transfers| && InsideMove(tx.transfers[i], env) && InsideMove(tx.transfers[j], env)
                   && tx.transfers[i].token != tx.transfers[j].token
  }

  lemma TwoOrMore(s: set<Address>)
    ensures |s| >= 2 <==> exists a, b :: a in s && b in s && a != b
  {
    if |s| >= 2 {
      var a :| a in s;
      assert |s - {a}| >= 1;
      var b :| b in s - {a};
    } else if a, b :| a in s && b in s && a != b {
      assert {a, b} <= s;
      SubsetSize({a, b}, s);
    }
  }

  lemma SubsetSize(a: set<Address>, b: set<Address>)
    requires a <= b
    ensures |a| <= |b|
  {
    assert b == a + (b - a);
  }

  lemma MovedTwoIs(tx: Tx, env: Env)
    requires TxOk(tx, env.wallet)
    ensures |LegOf(tx, env).tokens| >= 2 <==> MovedTwo(tx, env)
  {
    LegIs(tx, env);
    var tokens := TokensOf(tx.transfers, InsideMove, env);
    TwoOrMore(tokens);
    if a, b :| a in tokens && b in tokens && a != b {
      var i :| 0 <= i < |tx.transfers| && InsideMove(tx.transfers[i], env) && tx.transfers[i].token == a;
      var j :| 0 <= j < |tx.transfers| && InsideMove(tx.transfers[j], env) && tx.transfers[j].token == b;
    }
    if i, j :| && 0 <= i < |tx.transfers| && 0 <= j < |tx.transfers| && InsideMove(tx.transfers[i], env) && InsideMove(tx.transfers[j], env)
               && tx.transfers[i].token != tx.transfers[j].token {
      assert tx.transfers[i].token in tokens && tx.transfers[j].token in tokens;
    }
  }

  /** A transaction counts as manual exactly when the autopilot did not fire it and it moved two different tokens inside. */
  lemma ManualExactly(s: Totals, tx: Tx, fired: set<string>, h: Holdings, env: Env)
    requires TxOk(tx, env.wallet)
    ensures Indexed(s, tx.transfers, fired, h, env).manualTxs == s.manualTxs + (if tx.hash !in fired && MovedTwo(tx, env) then 1 else 0)
  {
    MovedTwoIs(tx, env);
    NetOfOwn(tx, env);
    var legs := TallyOf(tx.transfers, env).legs;
    assert Manual(legs, fired) == if tx.hash !in fired && |LegOf(tx, env).tokens| >= 2 then {tx.hash} else {};
  }

  // ---- Outside money is no profit ----

  /**
    * Money from outside or to it, as a classic account, another smart wallet or a mint moves it, leaves the score where it was
    * and is counted, at its worth, as money in or out.
    */
  lemma OutsideMoneyIsNoProfit(s: Totals, h: Holdings, e: Transfer, fired: set<string>, env: Env)
    requires Known(s, h, env) && (MoneyIn(e, env) || MoneyOut(e, env))
    ensures var tx := Tx(e.tx, [e], 0, 0);
            var after := Indexed(s, [e], fired, AfterTx(h, tx, env.wallet), env);
            && ScoreAfter(s, h, tx, fired, env) == Score(s, h, env)
            && after == s.(inUsd := s.inUsd + (if MoneyIn(e, env) then WorthOf(e, env) else 0.0),
                        outUsd := s.outUsd + (if MoneyOut(e, env) then WorthOf(e, env) else 0.0), seen := s.seen + {e.token})
  {
    var tx := Tx(e.tx, [e], 0, 0);
    OutsideAlone(e, env);
    OneTxRisesExactly(s, h, tx, [e], fired, env);
    assert Edges(map[]) == map[] && Manual(map[], fired) == {};
  }

  lemma OutsideAlone(e: Transfer, env: Env)
    requires MoneyIn(e, env) || MoneyOut(e, env)
    ensures TallyOf([e], env)
         == Tally(if MoneyIn(e, env) then WorthOf(e, env) else 0.0, if MoneyOut(e, env) then WorthOf(e, env) else 0.0, map[], {e.token})
    ensures LegOf(Tx(e.tx, [e], 0, 0), env) == NO_LEG
  {
    ClassifiedAs(e, env);
    OneOutside(e, MoneyIn(e, env), WorthOf(e, env), env);
  }

  /** What the wallet sends itself, and what it moves of a token that is not scored, leaves the totals as they were. */
  lemma TheRestIsNothing(s: Totals, h: Holdings, e: Transfer, fired: set<string>, env: Env)
    requires Known(s, h, env) && (e.to == env.wallet || e.from == Some(env.wallet)) && !Moves(e, env)
    ensures var tx := Tx(e.tx, [e], 0, 0);
            && Indexed(s, [e], fired, AfterTx(h, tx, env.wallet), env) == s
            && ScoreAfter(s, h, tx, fired, env) == Score(s, h, env)
  {
    var tx := Tx(e.tx, [e], 0, 0);
    ClassifiedAs(e, env);
    TallyStep([], e, env);
    assert [] + [e] == [e];
    assert TallyOf([e], env) == NO_TALLY;
    OneTxRisesExactly(s, h, tx, [e], fired, env);
    assert Edges(map[]) == map[] && Manual(map[], fired) == {};
  }
}
