/** The exchange bookkeeping of lib/exchange.py: turning the exchange's raw
    records (listed symbols, balances, trades, deposits) into pairs, an
    inventory and a time-ordered ledger of transactions.

    The exchange client itself is not modelled: every answer it would give is
    a parameter of the operation that asks for it. */
module Exchange {
  import opened Common
  import opened Currencies
  import opened Amounts
  import opened Transactions

  // ---------------------------------------------------------------------
  // Raw records, as the exchange returns them

  /** One entry of the exchange's list of tradable symbols. */
  datatype SymbolInfo = SymbolInfo(symbol: string, baseAsset: string, quoteAsset: string)

  /** One account balance: the free and the locked quantity of an asset. */
  datatype BalanceRecord = BalanceRecord(asset: string, free: real, locked: real)

  /** One fill of the account's own trades on a pair. */
  datatype TradeRecord = TradeRecord(
    time: int, isBuyer: bool, qty: real, price: real, commissionAsset: string, commission: real)

  /** One deposit of the account's deposit history. */
  datatype DepositRecord = DepositRecord(asset: string, insertTime: int, amount: real)

  /** A configured trade currency: its symbol and the alias the exchange
      lists it under. */
  datatype TradeCurrency = TradeCurrency(symbol: string, alias: string)

  /** An inventory entry: a copy of a known currency with the quantity held. */
  datatype Holding = Holding(currency: Currency, amount: real)

  // ---------------------------------------------------------------------
  // Pairs and currencies

  /** `[Pair(s['symbol'], s['baseAsset'], s['quoteAsset']) for s in symbols]`:
      the listed base asset becomes the trade currency and the listed quote
      asset the base currency. */
  function ListedPairs(info: seq<SymbolInfo>): (ps: seq<Pair>)
    ensures |ps| == |info|
    ensures forall i :: 0 <= i < |info| ==> ps[i].symbol == info[i].symbol
    ensures forall i :: 0 <= i < |info| ==>
              ps[i].tradeCurrency.symbol == info[i].baseAsset && ps[i].baseCurrency.symbol == info[i].quoteAsset
  {
    seq(|info|, i requires 0 <= i < |info| => NewPair(info[i].symbol, info[i].baseAsset, info[i].quoteAsset))
  }

  /** `[p.trade_currency for p in pairs]`. */
  function TradeLegs(ps: seq<Pair>): (cs: seq<Currency>)
    ensures |cs| == |ps| && forall i :: 0 <= i < |ps| ==> cs[i] == ps[i].tradeCurrency
  {
    seq(|ps|, i requires 0 <= i < |ps| => ps[i].tradeCurrency)
  }

  /** `[p.base_currency for p in pairs]`. */
  function BaseLegs(ps: seq<Pair>): (cs: seq<Currency>)
    ensures |cs| == |ps| && forall i :: 0 <= i < |ps| ==> cs[i] == ps[i].baseCurrency
  {
    seq(|ps|, i requires 0 <= i < |ps| => ps[i].baseCurrency)
  }

  /** The currencies the pairs trade in: every trade currency, then every
      base currency, each symbol once. */
  function PairCurrencies(ps: seq<Pair>): (cs: seq<Currency>)
    ensures NoDupSymbols(cs)
  {
    DistinctBySymbol(TradeLegs(ps) + BaseLegs(ps))
  }

  /** Both currencies of every pair are among the pair currencies. */
  lemma PairCurrenciesCover(ps: seq<Pair>)
    ensures forall i :: 0 <= i < |ps| ==>
              ps[i].tradeCurrency.symbol in Symbols(PairCurrencies(ps)) &&
              ps[i].baseCurrency.symbol in Symbols(PairCurrencies(ps))
  {
    var legs := TradeLegs(ps) + BaseLegs(ps);
    forall i | 0 <= i < |ps|
      ensures ps[i].tradeCurrency.symbol in Symbols(PairCurrencies(ps)) &&
              ps[i].baseCurrency.symbol in Symbols(PairCurrencies(ps))
    {
      assert legs[i] == ps[i].tradeCurrency && legs[|ps| + i] == ps[i].baseCurrency;
    }
  }

  /** Every pair currency is one leg of some pair. */
  lemma PairCurrenciesFromPairs(ps: seq<Pair>)
    ensures forall c :: c in PairCurrencies(ps) ==>
              exists i :: 0 <= i < |ps| && (c == ps[i].tradeCurrency || c == ps[i].baseCurrency)
  {
    var legs := TradeLegs(ps) + BaseLegs(ps);
    forall c | c in PairCurrencies(ps)
      ensures exists i :: 0 <= i < |ps| && (c == ps[i].tradeCurrency || c == ps[i].baseCurrency)
    {
      var k :| 0 <= k < |legs| && legs[k] == c;
      if k < |ps| {
        assert c == ps[k].tradeCurrency;
      } else {
        assert c == ps[k - |ps|].baseCurrency;
      }
    }
  }

  /** The quote currencies tried for every trade currency, in order. */
  const QUOTES: seq<string> := ["BNB", "ETH", "BTC"]

  /** The first guess at the traded pairs: each trade currency's alias
      followed by each quote currency. */
  function CandidateSymbols(tcs: seq<TradeCurrency>): (ss: seq<string>)
    ensures |ss| == 3 * |tcs|
    ensures forall k :: 0 <= k < |ss| ==> ss[k] == tcs[k / 3].alias + QUOTES[k % 3]
    decreases |tcs|
  {
    if tcs == [] then []
    else
      var init := CandidateSymbols(tcs[..|tcs| - 1]);
      var a := tcs[|tcs| - 1].alias;
      var ss := init + [a + "BNB", a + "ETH", a + "BTC"];
      assert forall k :: 0 <= k < |init| ==> tcs[..|tcs| - 1][k / 3] == tcs[k / 3];
      ss
  }

  /** `[s for s in symbols if s in known]`: the symbols that are known, in
      their order and with their repeats. */
  function KnownOnly(symbols: seq<string>, known: seq<string>): seq<string>
    decreases |symbols|
  {
    if symbols == [] then []
    else
      var s := symbols[|symbols| - 1];
      KnownOnly(symbols[..|symbols| - 1], known) + (if s in known then [s] else [])
  }

  /** `[pairs[pairs.index(s)] for s in symbols if s in pairs]`: for every
      guessed symbol that is listed, in the order of the guesses, the first
      listed pair with that symbol. */
  function SelectListed(ps: seq<Pair>, symbols: seq<string>): (r: seq<Pair>)
    ensures |r| <= |symbols|
    ensures PairSymbols(r) == KnownOnly(symbols, PairSymbols(ps))
    ensures forall k :: 0 <= k < |r| ==> LookupPair(ps, r[k].symbol) == Some(r[k])
    ensures forall q :: q in r ==> q in ps && q.symbol in symbols
    decreases |symbols|
  {
    if symbols == [] then []
    else
      var init := SelectListed(ps, symbols[..|symbols| - 1]);
      var s := symbols[|symbols| - 1];
      assert forall t :: t in symbols[..|symbols| - 1] ==> t in symbols;
      match LookupPair(ps, s)
      case None => init
      case Some(p) =>
        assert PairSymbols(init + [p]) == PairSymbols(init) + [p.symbol];
        assert forall k :: 0 <= k < |init| ==> (init + [p])[k] == init[k];
        init + [p]
  }

  /** Every guessed symbol that is listed has its pair among the selected. */
  lemma SelectListedComplete(ps: seq<Pair>, symbols: seq<string>)
    ensures forall s :: s in symbols && s in PairSymbols(ps) ==> s in PairSymbols(SelectListed(ps, symbols))
  {
    KnownOnlyComplete(symbols, PairSymbols(ps));
  }

  lemma {:induction false} KnownOnlyComplete(symbols: seq<string>, known: seq<string>)
    ensures forall s :: s in symbols && s in known ==> s in KnownOnly(symbols, known)
    decreases |symbols|
  {
    if symbols != [] {
      var init := symbols[..|symbols| - 1];
      KnownOnlyComplete(init, known);
      assert symbols == init + [symbols[|symbols| - 1]];
    }
  }

  // ---------------------------------------------------------------------
  // Inventory

  /** `symbol in TRADE_CURRENCIES`, trade currencies compared by symbol. */
  predicate IsTradeSymbol(tcs: seq<TradeCurrency>, s: string) {
    exists i :: 0 <= i < |tcs| && tcs[i].symbol == s
  }

  /** A balance enters the inventory when it is nonzero or belongs to a trade
      currency, and its asset is a known currency. */
  predicate Keeps(cs: seq<Currency>, tcs: seq<TradeCurrency>, b: BalanceRecord) {
    (b.free + b.locked > 0.0 || IsTradeSymbol(tcs, b.asset)) && b.asset in Symbols(cs)
  }

  function HoldingOf(cs: seq<Currency>, b: BalanceRecord): (h: Holding)
    requires b.asset in Symbols(cs)
    ensures h.currency in cs && h.currency.symbol == b.asset && h.amount == b.free + b.locked
  {
    Holding(LookupCurrency(cs, b.asset).value, b.free + b.locked)
  }

  /** The inventory `get_balances` builds from the balances, in their order. */
  function Inventory(cs: seq<Currency>, tcs: seq<TradeCurrency>, bs: seq<BalanceRecord>): (inv: seq<Holding>)
    ensures |inv| <= |bs|
    decreases |bs|
  {
    if bs == [] then []
    else
      var init := bs[..|bs| - 1];
      var b := bs[|bs| - 1];
      if Keeps(cs, tcs, b) then Inventory(cs, tcs, init) + [HoldingOf(cs, b)] else Inventory(cs, tcs, init)
  }

  /** One more balance adds at most its own holding, at the end. */
  lemma InventorySnoc(cs: seq<Currency>, tcs: seq<TradeCurrency>, bs: seq<BalanceRecord>, b: BalanceRecord)
    ensures Inventory(cs, tcs, bs + [b]) ==
              if Keeps(cs, tcs, b) then Inventory(cs, tcs, bs) + [HoldingOf(cs, b)] else Inventory(cs, tcs, bs)
  {
    assert (bs + [b])[..|bs|] == bs;
  }

  /** Every kept balance is in the inventory, as a holding of the known
      currency with its symbol, worth its free plus locked amount. */
  lemma {:induction false} InventoryComplete(cs: seq<Currency>, tcs: seq<TradeCurrency>, bs: seq<BalanceRecord>)
    ensures forall i :: 0 <= i < |bs| && Keeps(cs, tcs, bs[i]) ==> HoldingOf(cs, bs[i]) in Inventory(cs, tcs, bs)
    decreases |bs|
  {
    if bs != [] {
      var init, b := bs[..|bs| - 1], bs[|bs| - 1];
      InventoryComplete(cs, tcs, init);
      InventorySnoc(cs, tcs, init, b);
      assert init + [b] == bs;
      forall i | 0 <= i < |bs| && Keeps(cs, tcs, bs[i]) ensures HoldingOf(cs, bs[i]) in Inventory(cs, tcs, bs) {
        if i < |init| {
          assert bs[i] == init[i];
        }
      }
    }
  }

  /** The inventory holds nothing but kept balances: each holding is in a
      known currency and is positive unless it is a trade currency. */
  lemma {:induction false} InventorySound(cs: seq<Currency>, tcs: seq<TradeCurrency>, bs: seq<BalanceRecord>)
    ensures forall h :: h in Inventory(cs, tcs, bs) ==>
              exists i :: 0 <= i < |bs| && Keeps(cs, tcs, bs[i]) && h == HoldingOf(cs, bs[i])
    ensures forall h :: h in Inventory(cs, tcs, bs) ==>
              h.currency in cs && (h.amount > 0.0 || IsTradeSymbol(tcs, h.currency.symbol))
    decreases |bs|
  {
    if bs != [] {
      var init, b := bs[..|bs| - 1], bs[|bs| - 1];
      InventorySound(cs, tcs, init);
      InventorySnoc(cs, tcs, init, b);
      assert init + [b] == bs;
      forall h | h in Inventory(cs, tcs, bs)
        ensures exists i :: 0 <= i < |bs| && Keeps(cs, tcs, bs[i]) && h == HoldingOf(cs, bs[i])
      {
        if h in Inventory(cs, tcs, init) {
          var i :| 0 <= i < |init| && Keeps(cs, tcs, init[i]) && h == HoldingOf(cs, init[i]);
          assert bs[i] == init[i];
        } else {
          assert bs[|bs| - 1] == b;
        }
      }
    }
  }

  /** The assets `get_balances` warns about: kept balances of currencies that
      are not trade currencies. */
  function Warnings(cs: seq<Currency>, tcs: seq<TradeCurrency>, bs: seq<BalanceRecord>): (ws: seq<string>)
    ensures |ws| <= |bs|
    decreases |bs|
  {
    if bs == [] then []
    else
      var init := bs[..|bs| - 1];
      var b := bs[|bs| - 1];
      if Keeps(cs, tcs, b) && !IsTradeSymbol(tcs, b.asset) then Warnings(cs, tcs, init) + [b.asset]
      else Warnings(cs, tcs, init)
  }

  lemma WarningsSnoc(cs: seq<Currency>, tcs: seq<TradeCurrency>, bs: seq<BalanceRecord>, b: BalanceRecord)
    ensures Warnings(cs, tcs, bs + [b]) ==
              if Keeps(cs, tcs, b) && !IsTradeSymbol(tcs, b.asset) then Warnings(cs, tcs, bs) + [b.asset]
              else Warnings(cs, tcs, bs)
  {
    assert (bs + [b])[..|bs|] == bs;
  }

  /** Every kept balance of a currency that is not a trade currency is
      warned about. */
  lemma {:induction false} WarningsComplete(cs: seq<Currency>, tcs: seq<TradeCurrency>, bs: seq<BalanceRecord>)
    ensures forall i :: 0 <= i < |bs| && Keeps(cs, tcs, bs[i]) && !IsTradeSymbol(tcs, bs[i].asset) ==>
              bs[i].asset in Warnings(cs, tcs, bs)
    decreases |bs|
  {
    if bs != [] {
      var init, b := bs[..|bs| - 1], bs[|bs| - 1];
      WarningsComplete(cs, tcs, init);
      WarningsSnoc(cs, tcs, init, b);
      assert init + [b] == bs;
      forall i | 0 <= i < |bs| && Keeps(cs, tcs, bs[i]) && !IsTradeSymbol(tcs, bs[i].asset)
        ensures bs[i].asset in Warnings(cs, tcs, bs)
      {
        if i < |init| {
          assert bs[i] == init[i];
        }
      }
    }
  }

  /** A warning names a known currency that is not a trade currency and that
      has a positive balance. */
  lemma {:induction false} WarningsSound(cs: seq<Currency>, tcs: seq<TradeCurrency>, bs: seq<BalanceRecord>)
    ensures forall s :: s in Warnings(cs, tcs, bs) ==> !IsTradeSymbol(tcs, s) && s in Symbols(cs)
    ensures forall s :: s in Warnings(cs, tcs, bs) ==>
              exists i :: 0 <= i < |bs| && bs[i].asset == s && bs[i].free + bs[i].locked > 0.0
    decreases |bs|
  {
    if bs != [] {
      var init, b := bs[..|bs| - 1], bs[|bs| - 1];
      WarningsSound(cs, tcs, init);
      WarningsSnoc(cs, tcs, init, b);
      assert init + [b] == bs;
      forall s | s in Warnings(cs, tcs, bs)
        ensures exists i :: 0 <= i < |bs| && bs[i].asset == s && bs[i].free + bs[i].locked > 0.0
      {
        if s in Warnings(cs, tcs, init) {
          var i :| 0 <= i < |init| && init[i].asset == s && init[i].free + init[i].locked > 0.0;
          assert bs[i] == init[i];
        } else {
          assert bs[|bs| - 1] == b;
        }
      }
    }
  }

  // ---------------------------------------------------------------------
  // Records to transactions

  /** The three amounts of a trade: the quantity in the trade currency, the
      quantity times the price in the base currency with the opposite sign,
      and the commission, always spent, in the fee currency. */
  function TradeAmounts(pair: Pair, t: TradeRecord, fee: Currency): (xs: seq<Amount>)
    ensures |xs| == 3
    ensures xs[0].currency == pair.tradeCurrency && xs[1].currency == pair.baseCurrency && xs[2].currency == fee
    ensures t.isBuyer ==> xs[0].amount == t.qty && xs[1].amount == -(t.qty * t.price)
    ensures !t.isBuyer ==> xs[0].amount == -t.qty && xs[1].amount == t.qty * t.price
    ensures xs[2].amount == -t.commission
  {
    var buysign := if t.isBuyer then 1.0 else -1.0;
    [Amount(buysign * t.qty, pair.tradeCurrency),
     Amount(-buysign * t.qty * t.price, pair.baseCurrency),
     Amount(-t.commission, fee)]
  }

  /** The two legs of a trade balance at the trade price, and a sell is the
      mirror image of the buy of the same quantity. */
  lemma TradeLegsBalance(pair: Pair, t: TradeRecord, fee: Currency)
    ensures var xs := TradeAmounts(pair, t, fee); xs[1].amount == -(xs[0].amount * t.price)
    ensures var buy := TradeAmounts(pair, t.(isBuyer := true), fee);
            var sell := TradeAmounts(pair, t.(isBuyer := false), fee);
            sell[0].amount == -buy[0].amount && sell[1].amount == -buy[1].amount && sell[2] == buy[2]
  {
  }

  /** `create_transaction` for a trade: a buy or sell on the pair at the
      trade's time, or `NotFound` when the commission asset is not a known
      currency. */
  function TradeTx(cs: seq<Currency>, pair: Pair, t: TradeRecord): (r: Result<TxView, Error>)
    ensures r.Failure? <==> t.commissionAsset !in Symbols(cs)
    ensures r.Failure? ==> r.error == NotFound(t.commissionAsset)
    ensures r.Success? ==> r.value.pair == Some(pair) && r.value.time == t.time
    ensures r.Success? ==> r.value.txtype == (if t.isBuyer then Buy else Sell)
    ensures r.Success? ==> |r.value.amounts| == 3 && r.value.amounts[2].currency.symbol == t.commissionAsset
    ensures r.Success? ==> LookupCurrency(cs, t.commissionAsset) == Some(r.value.amounts[2].currency)
    ensures r.Success? ==> r.value.amounts == TradeAmounts(pair, t, r.value.amounts[2].currency)
  {
    match LookupCurrency(cs, t.commissionAsset)
    case None => Failure(NotFound(t.commissionAsset))
    case Some(fee) =>
      Success(TxView(Some(pair), t.time, TradeAmounts(pair, t, fee), if t.isBuyer then Buy else Sell))
  }

  /** `get_trade_history(pair)` on the trades the exchange returned: one
      transaction per trade, in order, or the error of the first trade that
      cannot be converted. */
  function TradeHistory(cs: seq<Currency>, pair: Pair, ts: seq<TradeRecord>): (r: Result<seq<TxView>, Error>)
    ensures r.Success? ==> |r.value| == |ts|
    ensures r.Success? ==> forall i :: 0 <= i < |ts| ==> TradeTx(cs, pair, ts[i]) == Success(r.value[i])
    decreases |ts|
  {
    if ts == [] then Success([])
    else
      var init := ts[..|ts| - 1];
      assert forall i :: 0 <= i < |init| ==> init[i] == ts[i];
      match TradeHistory(cs, pair, init)
      case Failure(e) => Failure(e)
      case Success(vs) =>
        match TradeTx(cs, pair, ts[|ts| - 1])
        case Failure(e) => Failure(e)
        case Success(v) => Success(vs + [v])
  }

  /** The trades of every pair, fetched pair by pair and flattened, or the
      error of the first pair whose history cannot be converted. */
  function AllTrades(cs: seq<Currency>, ps: seq<Pair>, history: string -> seq<TradeRecord>): (r: Result<seq<TxView>, Error>)
    decreases |ps|
  {
    if ps == [] then Success([])
    else
      var init := ps[..|ps| - 1];
      var p := ps[|ps| - 1];
      match AllTrades(cs, init, history)
      case Failure(e) => Failure(e)
      case Success(vs) =>
        match TradeHistory(cs, p, history(p.symbol))
        case Failure(e) => Failure(e)
        case Success(ws) => Success(vs + ws)
  }

  /** The trades of a pair convert exactly when each trade converts. */
  lemma {:induction false} TradeHistoryConverts(cs: seq<Currency>, pair: Pair, ts: seq<TradeRecord>)
    ensures TradeHistory(cs, pair, ts).Success? <==> forall i :: 0 <= i < |ts| ==> TradeTx(cs, pair, ts[i]).Success?
    decreases |ts|
  {
    if ts != [] {
      var init := ts[..|ts| - 1];
      TradeHistoryConverts(cs, pair, init);
      assert forall i :: 0 <= i < |init| ==> init[i] == ts[i];
    }
  }

  /** Converting one more trade extends the history by its transaction. */
  lemma TradeHistorySnoc(cs: seq<Currency>, pair: Pair, ts: seq<TradeRecord>, i: nat)
    requires i < |ts| && TradeHistory(cs, pair, ts[..i]).Success?
    requires TradeTx(cs, pair, ts[i]).Success?
    ensures TradeHistory(cs, pair, ts[..i + 1])
            == Success(TradeHistory(cs, pair, ts[..i]).value + [TradeTx(cs, pair, ts[i]).value])
  {
    assert ts[..i + 1][..i] == ts[..i];
  }

  /** Once the first `i` trades convert, a trade that does not convert
      decides the outcome: its error is the error of the whole. */
  lemma {:induction false} TradeHistoryStops(cs: seq<Currency>, pair: Pair, ts: seq<TradeRecord>, i: nat)
    requires i < |ts| && TradeHistory(cs, pair, ts[..i]).Success?
    requires TradeTx(cs, pair, ts[i]).Failure?
    ensures TradeHistory(cs, pair, ts) == Failure(TradeTx(cs, pair, ts[i]).error)
    decreases |ts|
  {
    var init := ts[..|ts| - 1];
    if i == |ts| - 1 {
      assert init == ts[..i];
    } else {
      assert init[..i] == ts[..i];
      TradeHistoryStops(cs, pair, init, i);
    }
  }

  /** The trades of all pairs convert exactly when the trades of each pair
      convert. */
  lemma {:induction false} AllTradesConverts(cs: seq<Currency>, ps: seq<Pair>, history: string -> seq<TradeRecord>)
    ensures AllTrades(cs, ps, history).Success?
            <==> forall i :: 0 <= i < |ps| ==> TradeHistory(cs, ps[i], history(ps[i].symbol)).Success?
    decreases |ps|
  {
    if ps != [] {
      var init, p := ps[..|ps| - 1], ps[|ps| - 1];
      AllTradesConverts(cs, init, history);
      assert forall i :: 0 <= i < |init| ==> init[i] == ps[i];
      assert ps == init + [p];
    }
  }

  /** Fetching one more pair extends the trades by that pair's history. */
  lemma AllTradesSnoc(cs: seq<Currency>, ps: seq<Pair>, history: string -> seq<TradeRecord>, i: nat)
    requires i < |ps| && AllTrades(cs, ps[..i], history).Success?
    requires TradeHistory(cs, ps[i], history(ps[i].symbol)).Success?
    ensures AllTrades(cs, ps[..i + 1], history)
            == Success(AllTrades(cs, ps[..i], history).value + TradeHistory(cs, ps[i], history(ps[i].symbol)).value)
  {
    assert ps[..i + 1][..i] == ps[..i];
  }

  /** Once the first `i` pairs convert, a pair whose trades do not convert
      decides the outcome: its error is the error of the whole. */
  lemma {:induction false} AllTradesStops(cs: seq<Currency>, ps: seq<Pair>, history: string -> seq<TradeRecord>, i: nat)
    requires i < |ps| && AllTrades(cs, ps[..i], history).Success?
    requires TradeHistory(cs, ps[i], history(ps[i].symbol)).Failure?
    ensures AllTrades(cs, ps, history) == Failure(TradeHistory(cs, ps[i], history(ps[i].symbol)).error)
    decreases |ps|
  {
    var init := ps[..|ps| - 1];
    if i == |ps| - 1 {
      assert init == ps[..i];
    } else {
      assert init[..i] == ps[..i];
      AllTradesStops(cs, init, history, i);
    }
  }

  /** Every transaction of a pair's history is a buy or a sell of three
      amounts on that pair. */
  lemma TradeHistoryAreTrades(cs: seq<Currency>, pair: Pair, ts: seq<TradeRecord>)
    requires TradeHistory(cs, pair, ts).Success?
    ensures forall v :: v in TradeHistory(cs, pair, ts).value ==>
              v.pair == Some(pair) && (v.txtype == Buy || v.txtype == Sell) && |v.amounts| == 3
  {
    var vs := TradeHistory(cs, pair, ts).value;
    forall v | v in vs ensures v.pair == Some(pair) && (v.txtype == Buy || v.txtype == Sell) && |v.amounts| == 3 {
      var k :| 0 <= k < |vs| && vs[k] == v;
      assert TradeTx(cs, pair, ts[k]) == Success(v);
    }
  }

  /** Every transaction `AllTrades` collects is a buy or a sell of three
      amounts on one of the pairs asked for. */
  lemma {:induction false} AllTradesAreTrades(cs: seq<Currency>, ps: seq<Pair>, history: string -> seq<TradeRecord>)
    requires AllTrades(cs, ps, history).Success?
    ensures forall v :: v in AllTrades(cs, ps, history).value ==>
              v.pair.Some? && v.pair.value in ps && (v.txtype == Buy || v.txtype == Sell) && |v.amounts| == 3
    decreases |ps|
  {
    if ps != [] {
      var init := ps[..|ps| - 1];
      var p := ps[|ps| - 1];
      AllTradesAreTrades(cs, init, history);
      TradeHistoryAreTrades(cs, p, history(p.symbol));
      assert forall q :: q in init ==> q in ps;
    }
  }

  /** `create_transaction` for a deposit: a single-amount deposit of the
      asset at its insertion time, shown against the asset's euro pair, or
      `NotFound` for an unknown asset or a missing euro pair. */
  function DepositTx(cs: seq<Currency>, ps: seq<Pair>, d: DepositRecord): (r: Result<TxView, Error>)
    ensures d.asset !in Symbols(cs) ==> r == Failure(NotFound(d.asset))
    ensures d.asset in Symbols(cs) && d.asset + "EUR" !in PairSymbols(ps) ==> r == Failure(NotFound(d.asset + "EUR"))
    ensures r.Success? <==> d.asset in Symbols(cs) && d.asset + "EUR" in PairSymbols(ps)
  {
    match LookupCurrency(cs, d.asset)
    case None => Failure(NotFound(d.asset))
    case Some(coin) =>
      match LookupPair(ps, d.asset + "EUR")
      case None => Failure(NotFound(d.asset + "EUR"))
      case Some(pair) => Success(TxView(Some(pair), d.insertTime, [Amount(d.amount, coin)], Deposit))
  }

  /** A converted deposit is a deposit of one amount, the deposited quantity
      of the first known currency with the asset's symbol, shown against the
      first listed pair with the asset's euro symbol. */
  lemma DepositTxShape(cs: seq<Currency>, ps: seq<Pair>, d: DepositRecord)
    requires DepositTx(cs, ps, d).Success?
    ensures var v := DepositTx(cs, ps, d).value;
            && v.txtype == Deposit && v.time == d.insertTime
            && v.pair.Some? && v.pair.value in ps && v.pair.value.symbol == d.asset + "EUR"
            && |v.amounts| == 1 && v.amounts[0].amount == d.amount
            && v.amounts[0].currency in cs && v.amounts[0].currency.symbol == d.asset
            && v.pair == LookupPair(ps, d.asset + "EUR")
            && LookupCurrency(cs, d.asset) == Some(v.amounts[0].currency)
  {
  }

  /** `get_transfer_history` on the deposits the exchange returned: one
      deposit transaction per record, in order, or the error of the first
      record that cannot be converted. */
  function TransferHistory(cs: seq<Currency>, ps: seq<Pair>, ds: seq<DepositRecord>): (r: Result<seq<TxView>, Error>)
    ensures r.Success? ==> |r.value| == |ds|
    ensures r.Success? ==> forall i :: 0 <= i < |ds| ==> DepositTx(cs, ps, ds[i]) == Success(r.value[i])
    decreases |ds|
  {
    if ds == [] then Success([])
    else
      var init := ds[..|ds| - 1];
      assert forall i :: 0 <= i < |init| ==> init[i] == ds[i];
      match TransferHistory(cs, ps, init)
      case Failure(e) => Failure(e)
      case Success(vs) =>
        match DepositTx(cs, ps, ds[|ds| - 1])
        case Failure(e) => Failure(e)
        case Success(v) => Success(vs + [v])
  }

  /** The deposits convert exactly when each deposit converts. */
  lemma {:induction false} TransferHistoryConverts(cs: seq<Currency>, ps: seq<Pair>, ds: seq<DepositRecord>)
    ensures TransferHistory(cs, ps, ds).Success? <==> forall i :: 0 <= i < |ds| ==> DepositTx(cs, ps, ds[i]).Success?
    decreases |ds|
  {
    if ds != [] {
      var init := ds[..|ds| - 1];
      TransferHistoryConverts(cs, ps, init);
      assert forall i :: 0 <= i < |init| ==> init[i] == ds[i];
    }
  }

  /** Converting one more deposit extends the transfers by its transaction. */
  lemma TransferHistorySnoc(cs: seq<Currency>, ps: seq<Pair>, ds: seq<DepositRecord>, i: nat)
    requires i < |ds| && TransferHistory(cs, ps, ds[..i]).Success?
    requires DepositTx(cs, ps, ds[i]).Success?
    ensures TransferHistory(cs, ps, ds[..i + 1])
            == Success(TransferHistory(cs, ps, ds[..i]).value + [DepositTx(cs, ps, ds[i]).value])
  {
    assert ds[..i + 1][..i] == ds[..i];
  }

  /** Once the first `i` deposits convert, a deposit that does not convert
      decides the outcome: its error is the error of the whole. */
  lemma {:induction false} TransferHistoryStops(cs: seq<Currency>, ps: seq<Pair>, ds: seq<DepositRecord>, i: nat)
    requires i < |ds| && TransferHistory(cs, ps, ds[..i]).Success?
    requires DepositTx(cs, ps, ds[i]).Failure?
    ensures TransferHistory(cs, ps, ds) == Failure(DepositTx(cs, ps, ds[i]).error)
    decreases |ds|
  {
    var init := ds[..|ds| - 1];
    if i == |ds| - 1 {
      assert init == ds[..i];
    } else {
      assert init[..i] == ds[..i];
      TransferHistoryStops(cs, ps, init, i);
    }
  }

  /** Every transfer in the ledger is a deposit of one amount. */
  lemma TransfersAreDeposits(cs: seq<Currency>, ps: seq<Pair>, ds: seq<DepositRecord>, i: nat)
    requires TransferHistory(cs, ps, ds).Success? && i < |ds|
    ensures var v := TransferHistory(cs, ps, ds).value[i];
            v.txtype == Deposit && |v.amounts| == 1 && v.amounts[0].amount == ds[i].amount
            && v.amounts[0].currency.symbol == ds[i].asset && v.time == ds[i].insertTime
  {
    DepositTxShape(cs, ps, ds[i]);
  }

  // ---------------------------------------------------------------------
  // The pairs actually traded

  predicate StrictlySortedBySymbol(ps: seq<Pair>) {
    forall i, j :: 0 <= i < j < |ps| ==> PairLess(ps[i], ps[j])
  }

  /** A pair below every pair of a sorted list can go in front of it. */
  lemma SortedCons(p: Pair, s: seq<Pair>)
    requires StrictlySortedBySymbol(s)
    requires forall q :: q in s ==> PairLess(p, q)
    ensures StrictlySortedBySymbol([p] + s)
  {
    var r := [p] + s;
    forall i, j | 0 <= i < j < |r| ensures PairLess(r[i], r[j]) {
      assert r[j] == s[j - 1];
      if i > 0 {
        assert r[i] == s[i - 1];
      } else {
        assert r[j] in s;
      }
    }
  }

  /** Inserts `p` into a list sorted by symbol, unless its symbol is there. */
  function InsertPair(p: Pair, s: seq<Pair>): (r: seq<Pair>)
    requires StrictlySortedBySymbol(s)
    ensures StrictlySortedBySymbol(r)
    ensures forall q :: q in r ==> q == p || q in s
    ensures forall q :: q in s ==> q in r
    ensures p.symbol in PairSymbols(r)
    decreases |s|
  {
    if s == [] then
      assert PairSymbols([p])[0] == p.symbol;
      [p]
    else if p.symbol == s[0].symbol then
      assert PairSymbols(s)[0] == p.symbol;
      s
    else if PairLess(p, s[0]) then
      forall q | q in s ensures PairLess(p, q) {
        var j :| 0 <= j < |s| && s[j] == q;
        if j > 0 {
          SymbolLessTransitive(p.symbol, s[0].symbol, s[j].symbol);
        }
      }
      SortedCons(p, s);
      assert PairSymbols([p] + s)[0] == p.symbol;
      [p] + s
    else
      SymbolLessTotal(p.symbol, s[0].symbol);
      var tail := s[1..];
      assert StrictlySortedBySymbol(tail) by {
        forall i, j | 0 <= i < j < |tail| ensures PairLess(tail[i], tail[j]) {
          assert tail[i] == s[i + 1] && tail[j] == s[j + 1];
        }
      }
      var rest := InsertPair(p, tail);
      forall q | q in rest ensures PairLess(s[0], q) {
        if q != p {
          var j :| 0 <= j < |tail| && tail[j] == q;
          assert q == s[j + 1];
        }
      }
      SortedCons(s[0], rest);
      assert forall q :: q in s ==> q == s[0] || q in tail;
      assert PairSymbols([s[0]] + rest) == [s[0].symbol] + PairSymbols(rest);
      [s[0]] + rest
  }

  /** The distinct pairs of a list, one per symbol (the first seen), sorted
      by symbol. */
  function DistinctSortedPairs(ps: seq<Pair>): (r: seq<Pair>)
    ensures StrictlySortedBySymbol(r)
    decreases |ps|
  {
    if ps == [] then [] else InsertPair(ps[|ps| - 1], DistinctSortedPairs(ps[..|ps| - 1]))
  }

  /** The distinct pairs come from the list, and every symbol of the list is
      among them. */
  lemma {:induction false} DistinctSortedPairsExact(ps: seq<Pair>)
    ensures forall q :: q in DistinctSortedPairs(ps) ==> q in ps
    ensures forall p :: p in ps ==> p.symbol in PairSymbols(DistinctSortedPairs(ps))
    decreases |ps|
  {
    if ps != [] {
      var init, p := ps[..|ps| - 1], ps[|ps| - 1];
      DistinctSortedPairsExact(init);
      var r := DistinctSortedPairs(init);
      var r' := InsertPair(p, r);
      assert r' == DistinctSortedPairs(ps);
      assert forall q :: q in ps ==> q in init || q == p;
      assert forall q :: q in init ==> q in ps;
      forall q | q in init ensures q.symbol in PairSymbols(r') {
        var k :| 0 <= k < |r| && PairSymbols(r)[k] == q.symbol;
        assert r[k] in r;
        var k' :| 0 <= k' < |r'| && r'[k'] == r[k];
        assert PairSymbols(r')[k'] == q.symbol;
      }
    }
  }

  /** The pairs of a list of transactions, in order. */
  function PairsOf(ts: seq<Transaction>): (ps: seq<Pair>)
    ensures forall p :: p in ps ==> exists t :: t in ts && t.pair == Some(p)
    ensures forall t :: t in ts && t.pair.Some? ==> t.pair.value in ps
    decreases |ts|
  {
    if ts == [] then []
    else
      var init := ts[..|ts| - 1];
      var t := ts[|ts| - 1];
      assert forall u :: u in ts ==> u in init || u == t;
      assert forall u :: u in init ==> u in ts;
      PairsOf(init) + (match t.pair case Some(p) => [p] case None => [])
  }

  /** `list(set(tx.pair for tx in trades))` sorted: the distinct pairs of the
      trades, sorted by symbol. */
  function TradedPairs(ts: seq<Transaction>): seq<Pair> {
    DistinctSortedPairs(PairsOf(ts))
  }

  /** The traded pairs are sorted by symbol without repeats, each is the
      pair of some trade, and every trade's pair symbol is among them. */
  lemma TradedPairsSound(ts: seq<Transaction>)
    ensures StrictlySortedBySymbol(TradedPairs(ts))
    ensures forall q :: q in TradedPairs(ts) ==> exists t :: t in ts && t.pair == Some(q)
    ensures forall t :: t in ts && t.pair.Some? ==> t.pair.value.symbol in PairSymbols(TradedPairs(ts))
  {
    DistinctSortedPairsExact(PairsOf(ts));
  }

  /** `[tx for txlist in lists for tx in txlist]`. */
  function Flatten(lists: seq<seq<Transaction>>): (ts: seq<Transaction>)
    decreases |lists|
  {
    if lists == [] then [] else Flatten(lists[..|lists| - 1]) + lists[|lists| - 1]
  }

  lemma FlattenSnoc(lists: seq<seq<Transaction>>, l: seq<Transaction>)
    ensures Flatten(lists + [l]) == Flatten(lists) + l
  {
    assert (lists + [l])[..|lists|] == lists;
  }

  lemma ViewsAppend(a: seq<Transaction>, b: seq<Transaction>)
    ensures Views(a + b) == Views(a) + Views(b)
  {
    assert forall i :: 0 <= i < |a| ==> (a + b)[i] == a[i];
    assert forall i :: 0 <= i < |b| ==> (a + b)[|a| + i] == b[i];
  }

  // ---------------------------------------------------------------------
  // The exchange object

  /** The exchange account as `Binance` keeps it: the trade currencies it is
      configured with, the pairs and currencies the exchange lists, the pairs
      traded, the inventory and the ledger. */
  class Binance {
    const tradeCurrencies: seq<TradeCurrency>
    var pairs: seq<Pair>
    var currencies: seq<Currency>
    var tradedPairs: seq<Pair>
    var inventory: seq<Holding>
    var trades: seq<Transaction>
    var transfers: seq<Transaction>
    var txlist: seq<Transaction>

    /** A new account view with nothing fetched yet. */
    constructor (tradeCurrencies: seq<TradeCurrency>)
      ensures this.tradeCurrencies == tradeCurrencies
      ensures pairs == [] && currencies == [] && tradedPairs == [] && inventory == []
      ensures trades == [] && transfers == [] && txlist == []
    {
      this.tradeCurrencies := tradeCurrencies;
      pairs, currencies, tradedPairs, inventory := [], [], [], [];
      trades, transfers, txlist := [], [], [];
    }

    /** `get_pairs`, given the exchange's list of symbols: the listed pairs
        plus the two euro pairs, their currencies, and the first guess at the
        traded pairs. */
    method GetPairs(info: seq<SymbolInfo>)
      modifies this`pairs, this`currencies, this`tradedPairs
      ensures pairs == ListedPairs(info) + [NewPair("BTCEUR", "EUR", "BTC"), NewPair("ETHEUR", "EUR", "ETH")]
      ensures currencies == PairCurrencies(pairs)
      ensures tradedPairs == SelectListed(pairs, CandidateSymbols(tradeCurrencies))
    {
      pairs := ListedPairs(info);
      pairs := pairs + [NewPair("BTCEUR", "EUR", "BTC")];
      pairs := pairs + [NewPair("ETHEUR", "EUR", "ETH")];

      currencies := PairCurrencies(pairs);

      var candidates: seq<string> := [];
      for i := 0 to |tradeCurrencies|
        invariant candidates == CandidateSymbols(tradeCurrencies[..i])
      {
        var coin := tradeCurrencies[i];
        candidates := candidates + [coin.alias + "BNB"];
        candidates := candidates + [coin.alias + "ETH"];
        candidates := candidates + [coin.alias + "BTC"];
        assert tradeCurrencies[..i + 1][..i] == tradeCurrencies[..i];
      }
      assert tradeCurrencies[..|tradeCurrencies|] == tradeCurrencies;

      tradedPairs := SelectListed(pairs, candidates);
    }

    /** `get_balances`, given the account's balances: the inventory, and the
        assets that are held but are not trade currencies (the source prints a
        warning for each). */
    method GetBalances(balances: seq<BalanceRecord>) returns (warnings: seq<string>)
      modifies this`inventory
      ensures inventory == Inventory(currencies, tradeCurrencies, balances)
      ensures warnings == Warnings(currencies, tradeCurrencies, balances)
    {
      inventory := [];
      warnings := [];
      for i := 0 to |balances|
        invariant inventory == Inventory(currencies, tradeCurrencies, balances[..i])
        invariant warnings == Warnings(currencies, tradeCurrencies, balances[..i])
      {
        var bal := balances[i];
        var symbol := bal.asset;
        var amount := bal.free + bal.locked;
        assert balances[..i + 1] == balances[..i] + [bal];
        InventorySnoc(currencies, tradeCurrencies, balances[..i], bal);
        WarningsSnoc(currencies, tradeCurrencies, balances[..i], bal);
        if (amount > 0.0 || IsTradeSymbol(tradeCurrencies, symbol)) && symbol in Symbols(currencies) {
          var coin := currencies[IndexOf(Symbols(currencies), symbol).value];
          assert Holding(coin, amount) == HoldingOf(currencies, bal);
          inventory := inventory + [Holding(coin, amount)];
          if !IsTradeSymbol(tradeCurrencies, symbol) {
            warnings := warnings + [symbol];
          }
        }
      }
      assert balances[..|balances|] == balances;
    }

    /** `create_transaction` inside `get_trade_history`. */
    method CreateTradeTransaction(pair: Pair, trade: TradeRecord) returns (r: Result<Transaction, Error>)
      ensures TradeTx(currencies, pair, trade).Failure? ==> r == Failure(TradeTx(currencies, pair, trade).error)
      ensures TradeTx(currencies, pair, trade).Success? ==>
                r.Success? && fresh(r.value) && r.value.View() == TradeTx(currencies, pair, trade).value
    {
      var time := trade.time;
      var buysign := if trade.isBuyer then 1.0 else -1.0;
      var txtype := if trade.isBuyer then "buy" else "sell";

      var baseAmount := Amount(-buysign * trade.qty * trade.price, pair.baseCurrency);
      var tradeAmount := Amount(buysign * trade.qty, pair.tradeCurrency);

      var feeIndex := IndexOf(Symbols(currencies), trade.commissionAsset);
      if feeIndex.None? {
        return Failure(NotFound(trade.commissionAsset));
      }
      var feeCurrency := currencies[feeIndex.value];
      var feeAmount := Amount(-trade.commission, feeCurrency);

      var amounts := [tradeAmount, baseAmount, feeAmount];
      var tx := new Transaction(Some(pair), time, amounts, Some(txtype));
      assert feeCurrency == LookupCurrency(currencies, trade.commissionAsset).value;
      assert amounts[0] == TradeAmounts(pair, trade, feeCurrency)[0];
      assert amounts[1] == TradeAmounts(pair, trade, feeCurrency)[1];
      assert amounts[2] == TradeAmounts(pair, trade, feeCurrency)[2];
      assert amounts == TradeAmounts(pair, trade, feeCurrency);
      assert tx.txtype == (if trade.isBuyer then Buy else Sell);
      return Success(tx);
    }

    /** `get_trade_history(pair)`, given the trades the exchange returned for
        the pair. */
    method GetTradeHistory(pair: Pair, records: seq<TradeRecord>) returns (r: Result<seq<Transaction>, Error>)
      ensures r.Success? <==> TradeHistory(currencies, pair, records).Success?
      ensures r.Failure? ==> r.error == TradeHistory(currencies, pair, records).error
      ensures r.Success? ==> Views(r.value) == TradeHistory(currencies, pair, records).value
    {
      var txs: seq<Transaction> := [];
      for i := 0 to |records|
        invariant TradeHistory(currencies, pair, records[..i]).Success?
        invariant Views(txs) == TradeHistory(currencies, pair, records[..i]).value
      {
        var tx := CreateTradeTransaction(pair, records[i]);
        if tx.Failure? {
          TradeHistoryStops(currencies, pair, records, i);
          return Failure(tx.error);
        }
        TradeHistorySnoc(currencies, pair, records, i);
        ViewsAppend(txs, [tx.value]);
        txs := txs + [tx.value];
      }
      assert records[..|records|] == records;
      return Success(txs);
    }

    /** `create_transaction` inside `get_transfer_history`. */
    method CreateDepositTransaction(deposit: DepositRecord) returns (r: Result<Transaction, Error>)
      ensures DepositTx(currencies, pairs, deposit).Failure? ==> r == Failure(DepositTx(currencies, pairs, deposit).error)
      ensures DepositTx(currencies, pairs, deposit).Success? ==>
                r.Success? && fresh(r.value) && r.value.View() == DepositTx(currencies, pairs, deposit).value
    {
      var coinIndex := IndexOf(Symbols(currencies), deposit.asset);
      if coinIndex.None? {
        return Failure(NotFound(deposit.asset));
      }
      var coin := currencies[coinIndex.value];
      var pairIndex := IndexOf(PairSymbols(pairs), deposit.asset + "EUR");
      if pairIndex.None? {
        return Failure(NotFound(deposit.asset + "EUR"));
      }
      var pair := pairs[pairIndex.value];

      var time := deposit.insertTime;
      var amount := deposit.amount;

      var tx := new Transaction(Some(pair), time, [Amount(amount, coin)], Some("deposit"));
      return Success(tx);
    }

    /** `get_transfer_history`, given the account's deposit history. */
    method GetTransferHistory(deposits: seq<DepositRecord>) returns (r: Result<seq<Transaction>, Error>)
      ensures r.Success? <==> TransferHistory(currencies, pairs, deposits).Success?
      ensures r.Failure? ==> r.error == TransferHistory(currencies, pairs, deposits).error
      ensures r.Success? ==> Views(r.value) == TransferHistory(currencies, pairs, deposits).value
    {
      var txs: seq<Transaction> := [];
      for i := 0 to |deposits|
        invariant TransferHistory(currencies, pairs, deposits[..i]).Success?
        invariant Views(txs) == TransferHistory(currencies, pairs, deposits[..i]).value
      {
        var tx := CreateDepositTransaction(deposits[i]);
        if tx.Failure? {
          TransferHistoryStops(currencies, pairs, deposits, i);
          return Failure(tx.error);
        }
        TransferHistorySnoc(currencies, pairs, deposits, i);
        ViewsAppend(txs, [tx.value]);
        txs := txs + [tx.value];
      }
      assert deposits[..|deposits|] == deposits;
      return Success(txs);
    }

    /** The fan-out of `get_all_transactions`: the trade history of every
        traded pair, given the trades the exchange returns for each pair
        symbol, flattened in pair order. The source fetches the pairs on a
        thread pool and joins the results in pair order, so fetching them one
        after the other yields the same list. */
    method FetchTrades(history: string -> seq<TradeRecord>) returns (r: Result<seq<Transaction>, Error>)
      ensures r.Success? <==> AllTrades(currencies, tradedPairs, history).Success?
      ensures r.Failure? ==> r.error == AllTrades(currencies, tradedPairs, history).error
      ensures r.Success? ==> Views(r.value) == AllTrades(currencies, tradedPairs, history).value
    {
      var perPair: seq<seq<Transaction>> := [];
      for i := 0 to |tradedPairs|
        invariant AllTrades(currencies, tradedPairs[..i], history).Success?
        invariant Views(Flatten(perPair)) == AllTrades(currencies, tradedPairs[..i], history).value
      {
        var pair := tradedPairs[i];
        ghost var done := Views(Flatten(perPair));
        var h := GetTradeHistory(pair, history(pair.symbol));
        if h.Failure? {
          AllTradesStops(currencies, tradedPairs, history, i);
          return Failure(h.error);
        }
        assert Views(Flatten(perPair)) == done;
        AllTradesSnoc(currencies, tradedPairs, history, i);
        ViewsAppend(Flatten(perPair), h.value);
        FlattenSnoc(perPair, h.value);
        perPair := perPair + [h.value];
      }
      assert tradedPairs[..|tradedPairs|] == tradedPairs;
      return Success(Flatten(perPair));
    }

    /** `get_all_transactions`, given the trades the exchange returns for each
        pair symbol and the deposit history: the trades of every traded pair,
        the transfers, the ledger sorted by time, and the pairs actually
        traded. A failure while converting trades changes nothing; a failure
        while converting transfers leaves the new trades in place. */
    method GetAllTransactions(history: string -> seq<TradeRecord>, deposits: seq<DepositRecord>)
      returns (r: Result<(), Error>)
      modifies this`trades, this`transfers, this`txlist, this`tradedPairs
      ensures AllTrades(currencies, old(tradedPairs), history).Failure? ==>
                && r == Failure(AllTrades(currencies, old(tradedPairs), history).error)
                && trades == old(trades) && transfers == old(transfers)
                && txlist == old(txlist) && tradedPairs == old(tradedPairs)
      ensures AllTrades(currencies, old(tradedPairs), history).Success? ==>
                Views(trades) == AllTrades(currencies, old(tradedPairs), history).value
      ensures AllTrades(currencies, old(tradedPairs), history).Success?
              && TransferHistory(currencies, pairs, deposits).Failure? ==>
                && r == Failure(TransferHistory(currencies, pairs, deposits).error)
                && transfers == old(transfers) && txlist == old(txlist) && tradedPairs == old(tradedPairs)
      ensures AllTrades(currencies, old(tradedPairs), history).Success?
              && TransferHistory(currencies, pairs, deposits).Success? ==>
                && r.Success?
                && Views(transfers) == TransferHistory(currencies, pairs, deposits).value
                && txlist == SortByTime(trades + transfers)
                && tradedPairs == TradedPairs(trades)
    {
      var fetched := FetchTrades(history);
      if fetched.Failure? {
        return Failure(fetched.error);
      }
      trades := fetched.value;
      r := RecordTransfers(deposits);
    }

    /** The rest of `get_all_transactions`, once the trades are stored: the
        transfers, then the sorted ledger and the traded pairs. */
    method RecordTransfers(deposits: seq<DepositRecord>) returns (r: Result<(), Error>)
      modifies this`transfers, this`txlist, this`tradedPairs
      ensures TransferHistory(currencies, pairs, deposits).Failure? ==>
                && r == Failure(TransferHistory(currencies, pairs, deposits).error)
                && transfers == old(transfers) && txlist == old(txlist) && tradedPairs == old(tradedPairs)
      ensures TransferHistory(currencies, pairs, deposits).Success? ==>
                && r.Success?
                && Views(transfers) == TransferHistory(currencies, pairs, deposits).value
                && txlist == SortByTime(trades + transfers)
                && tradedPairs == TradedPairs(trades)
    {
      ghost var cs, ps := currencies, pairs;
      var tf := GetTransferHistory(deposits);
      if tf.Failure? {
        return Failure(tf.error);
      }
      transfers := tf.value;
      txlist := SortByTime(trades + transfers);
      tradedPairs := TradedPairs(trades);
      assert currencies == cs && pairs == ps;
      return Success(());
    }
  }

  /** The ledger `get_all_transactions` builds is sorted by time, holds
      exactly the trades and the transfers, and keeps the fetch order of
      transactions that share a time. */
  lemma LedgerIsSortedPermutation(trades: seq<Transaction>, transfers: seq<Transaction>, k: int)
    ensures SortedByTime(SortByTime(trades + transfers))
    ensures multiset(SortByTime(trades + transfers)) == multiset(trades) + multiset(transfers)
    ensures AtTime(SortByTime(trades + transfers), k) == AtTime(trades, k) + AtTime(transfers, k)
  {
    SortByTimeSorted(trades + transfers);
    SortByTimePermutes(trades + transfers);
    SortByTimeStable(trades + transfers, k);
    AtTimeAppend(trades, transfers, k);
  }
}
