/**
  * Scoring a competition entry (packages/core/src/competition.ts, keeper/scripts/competition.ts): what the wallet holds,
  * less the money that came in from outside and the edge its swaps made over the oracle. Amounts of money are exact.
  */
module Scoring {
  import opened Basics
  import opened Sums
  import opened RouterMath

  /** A scored token; without a feed it is worth a dollar. */
  datatype Token = Token(id: Address, decimals: nat, feed: Option<string>)

  /** The network as one run sees it. `builtIn` are the tokens whose balances are read for every wallet. */
  datatype Env = Env(wallet: Address, tokens: seq<Token>, builtIn: set<Address>, smartWallets: set<Address>, prices: map<string, real>)

  /** A transfer event; a mint has no sender. */
  datatype Transfer = Transfer(tx: string, token: Address, from: Option<Address>, to: Address, amount: nat)

  datatype Holdings = Holdings(tokens: map<Address, int>, supplied: int, borrowed: int)

  // ---- Value ----

  function Scale(decimals: nat): (r: real)
    ensures r >= 1.0
  {
    Pow10Positive(decimals);
    Pow10(decimals) as real
  }

  function PriceOf(t: Token, prices: map<string, real>): Option<real> {
    match t.feed
    case None => Some(1.0)
    case Some(f) => if f in prices then Some(prices[f]) else None
  }

  /** USD per base unit; nothing for a token without a price. */
  function PerUnit(t: Token, prices: map<string, real>): real {
    match PriceOf(t, prices)
    case None => 0.0
    case Some(p) => p / Scale(t.decimals)
  }

  function Usd(t: Token, amount: int, prices: map<string, real>): real {
    amount as real * PerUnit(t, prices)
  }

  function TokensUsd(amounts: map<Address, int>, tokens: seq<Token>, prices: map<string, real>): real {
    if tokens == [] then 0.0
    else
      var t := tokens[|tokens| - 1];
      TokensUsd(amounts, tokens[..|tokens| - 1], prices) + Usd(t, Get(amounts, t.id), prices)
  }

  function LendingUsd(amount: int): real {
    amount as real / 10000000.0
  }

  function Value(h: Holdings, tokens: seq<Token>, prices: map<string, real>): real {
    LendingUsd(h.supplied - h.borrowed) + TokensUsd(h.tokens, tokens, prices)
  }

  predicate HeldUnpriced(h: Holdings, t: Token, prices: map<string, real>) {
    Get(h.tokens, t.id) != 0 && PriceOf(t, prices).None?
  }

  predicate ListsUnpriced(id: Address, h: Holdings, tokens: seq<Token>, prices: map<string, real>) {
    exists i :: 0 <= i < |tokens| && tokens[i].id == id && HeldUnpriced(h, tokens[i], prices)
  }

  /** Exactly the tokens held without a price. */
  ghost predicate UnpricedAre(unpriced: seq<Address>, h: Holdings, tokens: seq<Token>, prices: map<string, real>) {
    forall id :: id in unpriced <==> ListsUnpriced(id, h, tokens, prices)
  }

  lemma OneMoreToken(unpriced: seq<Address>, h: Holdings, tokens: seq<Token>, k: nat, prices: map<string, real>)
    requires k < |tokens| && UnpricedAre(unpriced, h, tokens[..k], prices)
    ensures UnpricedAre(if HeldUnpriced(h, tokens[k], prices) then unpriced + [tokens[k].id] else unpriced, h, tokens[..k + 1], prices)
    ensures TokensUsd(h.tokens, tokens[..k + 1], prices) == TokensUsd(h.tokens, tokens[..k], prices) + Usd(tokens[k], Get(h.tokens, tokens[k].id), prices)
  {
    var front, all := tokens[..k], tokens[..k + 1];
    assert all[..k] == front && all == front + [tokens[k]];
    forall id
      ensures ListsUnpriced(id, h, all, prices) <==> ListsUnpriced(id, h, front, prices) || (tokens[k].id == id && HeldUnpriced(h, tokens[k], prices))
    {
      if ListsUnpriced(id, h, front, prices) {
        var i :| 0 <= i < |front| && front[i].id == id && HeldUnpriced(h, front[i], prices);
        assert all[i] == front[i];
      }
      if tokens[k].id == id && HeldUnpriced(h, tokens[k], prices) {
        assert all[k] == tokens[k];
      }
    }
  }

  lemma PricedUsd(t: Token, amount: int, p: real, prices: map<string, real>)
    requires PriceOf(t, prices) == Some(p)
    ensures amount as real / Scale(t.decimals) * p == Usd(t, amount, prices)
  {
    var n, scale := amount as real, Scale(t.decimals);
    assert n / scale * p == n * (p / scale);
  }

  lemma UnpricedUsd(t: Token, amount: int, prices: map<string, real>)
    requires amount == 0 || PriceOf(t, prices).None?
    ensures Usd(t, amount, prices) == 0.0
  {
  }

  /** The value in USD and the tokens held that had no price. */
  method ValueUsd(h: Holdings, tokens: seq<Token>, prices: map<string, real>) returns (usd: real, unpriced: seq<Address>)
    ensures usd == Value(h, tokens, prices)
    ensures UnpricedAre(unpriced, h, tokens, prices)
  {
    usd, unpriced := LendingUsd(h.supplied - h.borrowed), [];
    for k := 0 to |tokens|
      invariant usd == LendingUsd(h.supplied - h.borrowed) + TokensUsd(h.tokens, tokens[..k], prices)
      invariant UnpricedAre(unpriced, h, tokens[..k], prices)
    {
      var t := tokens[k];
      OneMoreToken(unpriced, h, tokens, k, prices);
      var amount := Get(h.tokens, t.id);
      if amount == 0 || PriceOf(t, prices).None? {
        UnpricedUsd(t, amount, prices);
      }
      if amount != 0 {
        match PriceOf(t, prices)
        case None => unpriced := unpriced + [t.id];
        case Some(p) =>
          PricedUsd(t, amount, p, prices);
          usd := usd + amount as real / Scale(t.decimals) * p;
      }
    }
    assert tokens[..|tokens|] == tokens;
  }

  // ---- Moves inside the wallet ----

  datatype Move = Move(tx: string, token: Address, incoming: bool, usd: real)

  /** What one transaction moved inside the wallet. */
  datatype Leg = Leg(outUsd: real, inUsd: real, tokens: set<Address>)

  const NO_LEG := Leg(0.0, 0.0, {})

  function Extend(leg: Leg, m: Move): Leg {
    Leg(if m.incoming then leg.outUsd else leg.outUsd + m.usd, if m.incoming then leg.inUsd + m.usd else leg.inUsd, leg.tokens + {m.token})
  }

  function AddMove(legs: map<string, Leg>, m: Move): map<string, Leg> {
    legs[m.tx := Extend(if m.tx in legs then legs[m.tx] else NO_LEG, m)]
  }

  function Legs(moves: seq<Move>): map<string, Leg> {
    Fold(AddMove, map[], moves)
  }

  /** What a swap paid above what it took, both at the oracle price. */
  function Edge(leg: Leg): real {
    if |leg.tokens| >= 2 && leg.outUsd > 0.0 && leg.inUsd > leg.outUsd then leg.inUsd - leg.outUsd else 0.0
  }

  function Edges(legs: map<string, Leg>): map<string, real> {
    map tx | tx in legs :: Edge(legs[tx])
  }

  function Manual(legs: map<string, Leg>, fired: set<string>): set<string> {
    set tx | tx in legs && tx !in fired && |legs[tx].tokens| >= 2
  }

  method InsideMoves(moves: seq<Move>, fired: set<string>) returns (manualTxs: nat, swapEdgeUsd: real)
    ensures manualTxs == |Manual(Legs(moves), fired)|
    ensures swapEdgeUsd == RealSum(Edges(Legs(moves)))
  {
    var byTx: map<string, Leg> := map[];
    for i := 0 to |moves|
      invariant byTx == Legs(moves[..i])
    {
      var m := moves[i];
      assert moves[..i + 1][..i] == moves[..i];
      var t := if m.tx in byTx then byTx[m.tx] else NO_LEG;
      byTx := byTx[m.tx := Extend(t, m)];
    }
    assert moves[..|moves|] == moves;
    manualTxs, swapEdgeUsd := SumLegs(byTx, fired);
  }

  lemma EdgesWithout(legs: map<string, Leg>, tx: string)
    requires tx in legs
    ensures RealSum(Edges(legs)) == RealSum(Edges(legs - {tx})) + Edge(legs[tx])
  {
    RealSumTake(Edges(legs), tx);
    assert Edges(legs) - {tx} == Edges(legs - {tx});
  }

  lemma ManualWithout(legs: map<string, Leg>, tx: string, fired: set<string>)
    requires tx in legs
    ensures |Manual(legs, fired)| == |Manual(legs - {tx}, fired)| + (if tx !in fired && |legs[tx].tokens| >= 2 then 1 else 0)
  {
    if tx !in fired && |legs[tx].tokens| >= 2 {
      assert Manual(legs, fired) == Manual(legs - {tx}, fired) + {tx};
    } else {
      assert Manual(legs, fired) == Manual(legs - {tx}, fired);
    }
  }

  method SumLegs(byTx: map<string, Leg>, fired: set<string>) returns (manualTxs: nat, swapEdgeUsd: real)
    ensures manualTxs == |Manual(byTx, fired)|
    ensures swapEdgeUsd == RealSum(Edges(byTx))
  {
    manualTxs, swapEdgeUsd := 0, 0.0;
    var left := byTx;
    while left != map[]
      invariant forall tx :: tx in left ==> tx in byTx && left[tx] == byTx[tx]
      invariant swapEdgeUsd == RealSum(Edges(byTx)) - RealSum(Edges(left))
      invariant manualTxs == |Manual(byTx, fired)| - |Manual(left, fired)|
      decreases |left|
    {
      var tx :| tx in left;
      var leg := left[tx];
      EdgesWithout(left, tx);
      ManualWithout(left, tx, fired);
      if tx !in fired && |leg.tokens| >= 2 { manualTxs := manualTxs + 1; }
      if |leg.tokens| >= 2 && leg.outUsd > 0.0 && leg.inUsd > leg.outUsd {
        swapEdgeUsd := swapEdgeUsd + (leg.inUsd - leg.outUsd);
      }
      left := left - {tx};
    }
  }

  lemma AddMoveCommutes(legs: map<string, Leg>, a: Move, b: Move)
    ensures AddMove(AddMove(legs, a), b) == AddMove(AddMove(legs, b), a)
  {
    var leg := if a.tx in legs then legs[a.tx] else NO_LEG;
    assert Extend(Extend(leg, a), b) == Extend(Extend(leg, b), a);
  }

  /** The order the moves arrive in (several pages of events, merged) makes no difference. */
  lemma MoveOrderIsIrrelevant(moves: seq<Move>, others: seq<Move>)
    requires multiset(moves) == multiset(others)
    ensures Legs(moves) == Legs(others)
  {
    forall legs, a, b ensures AddMove(AddMove(legs, a), b) == AddMove(AddMove(legs, b), a) {
      AddMoveCommutes(legs, a, b);
    }
    FoldOrder(AddMove, map[], moves, others);
  }

  // ---- One run of the indexer for one entry ----

  /** The running totals; no opening value before the first scoring. `seen` are the tokens the wallet has moved. */
  datatype Totals = Totals(inUsd: real, outUsd: real, swapEdgeUsd: real, manualTxs: nat, seen: set<Address>, openingUsd: Option<real>)

  /** What the indexer reads of a wallet's holdings: a token that is not built in only once the wallet has moved it. */
  function Visible(h: Holdings, seen: set<Address>, env: Env): Holdings {
    h.(tokens := map id | id in h.tokens && (id in env.builtIn || id in seen) :: h.tokens[id])
  }

  datatype Effect = Skip | Outside(incoming: bool, usd: real) | Inside(move: Move)

  /** A classic account or another smart wallet is outside money; any other contract is a protocol. */
  predicate External(address: Address, smartWallets: set<Address>) {
    (address != "" && (address[0] == 'G' || address[0] == 'M')) || address in smartWallets
  }

  function Find(tokens: seq<Token>, id: Address): Option<Token> {
    if tokens == [] then None
    else if tokens[|tokens| - 1].id == id then Some(tokens[|tokens| - 1])
    else Find(tokens[..|tokens| - 1], id)
  }

  function Classify(e: Transfer, env: Env): Effect {
    match Find(env.tokens, e.token)
    case None => Skip
    case Some(t) =>
      var incoming := e.to == env.wallet;
      if incoming && e.from == Some(env.wallet) then Skip
      else
        var usd := Usd(t, e.amount, env.prices);
        var counterparty := if incoming then e.from else Some(e.to);
        if counterparty.None? || External(counterparty.value, env.smartWallets) then Outside(incoming, usd)
        else Inside(Move(e.tx, e.token, incoming, usd))
  }

  /** What a run reads from its transfers: outside money in and out, the legs of the moves inside, the tokens moved. */
  datatype Tally = Tally(inUsd: real, outUsd: real, legs: map<string, Leg>, seen: set<Address>)

  const NO_TALLY := Tally(0.0, 0.0, map[], {})

  function AddEffect(t: Tally, token: Address, e: Effect): Tally {
    match e
    case Skip => t
    case Outside(true, usd) => t.(inUsd := t.inUsd + usd, seen := t.seen + {token})
    case Outside(false, usd) => t.(outUsd := t.outUsd + usd, seen := t.seen + {token})
    case Inside(m) => t.(legs := AddMove(t.legs, m), seen := t.seen + {token})
  }

  /** What a transfer comes to, each at whatever prices. */
  type Valuation = Transfer -> Effect

  function At(env: Env): Valuation {
    (e: Transfer) => Classify(e, env)
  }

  function Adder(v: Valuation): (Tally, Transfer) -> Tally {
    (t: Tally, e: Transfer) => AddEffect(t, e.token, v(e))
  }

  function TallyBy(transfers: seq<Transfer>, v: Valuation): Tally {
    Fold(Adder(v), NO_TALLY, transfers)
  }

  function TallyOf(transfers: seq<Transfer>, env: Env): Tally {
    TallyBy(transfers, At(env))
  }

  function NetIn(s: Totals): real {
    s.inUsd - s.outUsd + (if s.openingUsd.Some? then s.openingUsd.value else 0.0) + s.swapEdgeUsd
  }

  function Pnl(s: Totals, value: real): real {
    value - NetIn(s)
  }

  function ReturnPct(pnl: real, netIn: real): Option<real> {
    if netIn > 0.0 then Some(pnl / netIn * 100.0) else None
  }

  /** What a tally adds to the totals. */
  ghost function Plus(s: Totals, t: Tally, fired: set<string>): Totals {
    s.(inUsd := s.inUsd + t.inUsd, outUsd := s.outUsd + t.outUsd, seen := s.seen + t.seen,
    swapEdgeUsd := s.swapEdgeUsd + RealSum(Edges(t.legs)), manualTxs := s.manualTxs + |Manual(t.legs, fired)|)
  }

  ghost function Counted(prev: Totals, transfers: seq<Transfer>, fired: set<string>, env: Env): Totals {
    Plus(prev, TallyOf(transfers, env), fired)
  }

  /** The first scoring fixes the value no flow explains, when it is more than a dollar. */
  function Opened(s: Totals, value: real): Totals {
    if s.openingUsd.Some? then s
    else
      var unexplained := value - (s.inUsd - s.outUsd + s.swapEdgeUsd);
      s.(openingUsd := Some(if unexplained > 1.0 then unexplained else 0.0))
  }

  function ScoredValue(s: Totals, h: Holdings, env: Env): real {
    Value(Visible(h, s.seen, env), env.tokens, env.prices)
  }

  /** The totals after a run that read `transfers` and then the holdings. */
  ghost function Indexed(prev: Totals, transfers: seq<Transfer>, fired: set<string>, h: Holdings, env: Env): Totals {
    var s := Counted(prev, transfers, fired, env);
    Opened(s, ScoredValue(s, h, env))
  }

  /** The totals and the moves set apart are those of a tally on top of the totals before. */
  ghost predicate ReadSoFar(prev: Totals, t: Tally, state: Totals, inside: seq<Move>) {
    && Legs(inside) == t.legs
    && state == prev.(inUsd := prev.inUsd + t.inUsd, outUsd := prev.outUsd + t.outUsd, seen := prev.seen + t.seen)
  }

  lemma LegsAppended(moves: seq<Move>, m: Move)
    ensures Legs(moves + [m]) == AddMove(Legs(moves), m)
  {
    assert (moves + [m])[..|moves|] == moves;
  }

  method ReadEffect(ghost prev: Totals, ghost t: Tally, before: Totals, moves: seq<Move>, token: Address, e: Effect)
    returns (state: Totals, inside: seq<Move>)
    requires ReadSoFar(prev, t, before, moves)
    ensures ReadSoFar(prev, AddEffect(t, token, e), state, inside)
  {
    state, inside := before, moves;
    assert prev.seen + t.seen + {token} == prev.seen + (t.seen + {token});
    match e
    case Skip =>
    case Outside(incoming, usd) =>
      state := state.(seen := state.seen + {token});
      if incoming { state := state.(inUsd := state.inUsd + usd); } else { state := state.(outUsd := state.outUsd + usd); }
    case Inside(m) =>
      LegsAppended(inside, m);
      state := state.(seen := state.seen + {token});
      inside := inside + [m];
  }

  lemma TallyGrows(transfers: seq<Transfer>, i: nat, env: Env)
    requires i < |transfers|
    ensures TallyOf(transfers[..i + 1], env) == AddEffect(TallyOf(transfers[..i], env), transfers[i].token, Classify(transfers[i], env))
  {
    assert transfers[..i + 1][..i] == transfers[..i];
  }

  /** Reads the transfers one by one into the totals, and sets the moves inside the wallet apart. */
  method ReadTransfers(prev: Totals, transfers: seq<Transfer>, env: Env) returns (state: Totals, inside: seq<Move>)
    ensures ReadSoFar(prev, TallyOf(transfers, env), state, inside)
  {
    state, inside := prev, [];
    for i := 0 to |transfers|
      invariant ReadSoFar(prev, TallyOf(transfers[..i], env), state, inside)
    {
      TallyGrows(transfers, i, env);
      var e := transfers[i];
      state, inside := ReadEffect(prev, TallyOf(transfers[..i], env), state, inside, e.token, Classify(e, env));
    }
    assert transfers[..|transfers|] == transfers;
  }

  method IndexEntry(prev: Totals, transfers: seq<Transfer>, fired: set<string>, h: Holdings, env: Env)
    returns (state: Totals, pnl: real, returnPct: Option<real>)
    ensures state == Indexed(prev, transfers, fired, h, env)
    ensures pnl == Pnl(state, ScoredValue(state, h, env))
    ensures returnPct == ReturnPct(pnl, NetIn(state))
  {
    var inside;
    state, inside := ReadTransfers(prev, transfers, env);
    var manualTxs, swapEdgeUsd := InsideMoves(inside, fired);
    state := state.(manualTxs := state.manualTxs + manualTxs, swapEdgeUsd := state.swapEdgeUsd + swapEdgeUsd);
    var value, _ := ValueUsd(Visible(h, state.seen, env), env.tokens, env.prices);
    if state.openingUsd.None? {
      var unexplained := value - (state.inUsd - state.outUsd + state.swapEdgeUsd);
      state := state.(openingUsd := Some(if unexplained > 1.0 then unexplained else 0.0));
    }
    pnl := Pnl(state, value);
    returnPct := ReturnPct(pnl, NetIn(state));
  }

  /** The order the transfers arrive in makes no difference to a run. */
  lemma TransferOrderIsIrrelevant(transfers: seq<Transfer>, others: seq<Transfer>, v: Valuation)
    requires multiset(transfers) == multiset(others)
    ensures TallyBy(transfers, v) == TallyBy(others, v)
  {
    var f := Adder(v);
    forall t, a, b ensures f(f(t, a), b) == f(f(t, b), a) {
      match (v(a), v(b))
      case (Inside(m), Inside(n)) => AddMoveCommutes(t.legs, m, n);
      case _ =>
    }
    FoldOrder(f, NO_TALLY, transfers, others);
  }

  // ---- Tallies of different transactions ----

  /** A move inside the wallet is booked under the transfer's own transaction. */
  ghost predicate BooksUnderTx(v: Valuation) {
    forall e :: v(e).Inside? ==> v(e).move.tx == e.tx
  }

  /** Every leg is of a transaction among the transfers. */
  lemma {:induction false} LegsAreTheirs(transfers: seq<Transfer>, tx: string, v: Valuation)
    requires BooksUnderTx(v) && tx in TallyBy(transfers, v).legs
    ensures exists i :: 0 <= i < |transfers| && transfers[i].tx == tx
  {
    var front, e := transfers[..|transfers| - 1], transfers[|transfers| - 1];
    if tx in TallyBy(front, v).legs {
      LegsAreTheirs(front, tx, v);
      var i :| 0 <= i < |front| && front[i].tx == tx;
      assert transfers[i].tx == tx;
    } else {
      assert v(e).Inside? && v(e).move.tx == e.tx;
    }
  }

  function Joined(t: Tally, u: Tally): Tally {
    Tally(t.inUsd + u.inUsd, t.outUsd + u.outUsd, t.legs + u.legs, t.seen + u.seen)
  }

  lemma EffectJoins(t: Tally, u: Tally, token: Address, e: Effect)
    requires t.legs.Keys !! AddEffect(u, token, e).legs.Keys
    ensures AddEffect(Joined(t, u), token, e) == Joined(t, AddEffect(u, token, e))
    ensures t.legs.Keys !! u.legs.Keys
  {
    match e
    case Inside(m) =>
      assert m.tx in AddMove(u.legs, m);
      assert AddMove(t.legs + u.legs, m) == t.legs + AddMove(u.legs, m);
    case _ =>
  }

  /** Transfers of other transactions add their own tally. */
  lemma {:induction false} TallyJoins(t: Tally, transfers: seq<Transfer>, v: Valuation)
    requires t.legs.Keys !! TallyBy(transfers, v).legs.Keys
    ensures Fold(Adder(v), t, transfers) == Joined(t, TallyBy(transfers, v))
  {
    if transfers != [] {
      var front, e := transfers[..|transfers| - 1], transfers[|transfers| - 1];
      EffectJoins(t, TallyBy(front, v), e.token, v(e));
      TallyJoins(t, front, v);
    }
  }

  /** Two valuations that agree on the transfers give one tally. */
  lemma {:induction false} SameTally(transfers: seq<Transfer>, v: Valuation, w: Valuation)
    requires forall i :: 0 <= i < |transfers| ==> v(transfers[i]) == w(transfers[i])
    ensures TallyBy(transfers, v) == TallyBy(transfers, w)
  {
    if transfers != [] {
      SameTally(transfers[..|transfers| - 1], v, w);
    }
  }

  lemma EdgesJoin(a: map<string, Leg>, b: map<string, Leg>)
    requires a.Keys !! b.Keys
    ensures RealSum(Edges(a + b)) == RealSum(Edges(a)) + RealSum(Edges(b))
  {
    assert Edges(a + b) == Edges(a) + Edges(b);
    RealSumBoth(Edges(a), Edges(b));
  }

  /** The return is the score over what was put in, in percent, as long as something was. */
  lemma ReturnMeans(pnl: real, netIn: real)
    ensures ReturnPct(pnl, netIn).Some? <==> netIn > 0.0
    ensures ReturnPct(pnl, netIn).Some? ==> ReturnPct(pnl, netIn).value * netIn == pnl * 100.0
  {
    if netIn > 0.0 {
      var share := pnl / netIn;
      assert share * netIn == pnl;
    }
  }

  /** Money the wallet already had scores nothing: the first scoring is never above the tolerance of a dollar. */
  lemma FirstScoringIsNoProfit(prev: Totals, transfers: seq<Transfer>, fired: set<string>, h: Holdings, env: Env)
    requires prev.openingUsd.None?
    ensures var s := Indexed(prev, transfers, fired, h, env);
            var pnl := Pnl(s, ScoredValue(s, h, env));
            && pnl <= 1.0 && (pnl != 0.0 ==> s.openingUsd == Some(0.0))
            && var unexplained := ScoredValue(s, h, env) - (s.inUsd - s.outUsd + s.swapEdgeUsd);
            && pnl == (if unexplained > 1.0 then 0.0 else unexplained)
            && s.openingUsd == Some(if unexplained > 1.0 then unexplained else 0.0)
  {
  }
}
