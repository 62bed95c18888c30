/** Currencies and trading pairs (lib/currency.py).

    A currency and a pair are identified by their ticker symbol: every lookup
    the tracker performs compares symbols, so equality "by symbol" is the
    identity used throughout the model. */
module Currencies {
  import opened Common

  /** A currency. `Plain` is the base record built by the market-data loader
      and by pairs; `Fiat` is the subclass used for the fixed fiat list, which
      adds no field of its own. */
  datatype Currency =
    | Plain(symbol: string, name: string)
    | Fiat(symbol: string, name: string)

  /** A trading pair: the exchange's symbol for it, the currency prices are
      quoted in (base) and the currency that is bought or sold (trade). */
  datatype Pair = Pair(symbol: string, baseCurrency: Currency, tradeCurrency: Currency)

  /** The two fields of a raw market-data record that the loader reads. */
  datatype CoinRecord = CoinRecord(symbol: string, name: string)

  /** `Currency(symbol, name)`: the record keeps both arguments as given. */
  function NewCurrency(symbol: string, name: string): (c: Currency)
    ensures c.Plain?
    ensures c.symbol == symbol && c.name == name
  {
    Plain(symbol, name)
  }

  /** The currency of one leg of a pair. The pair constructor knows only the
      leg's symbol, so the name is left empty. */
  function LegCurrency(symbol: string): (c: Currency)
    ensures c.Plain? && c.symbol == symbol
  {
    Plain(symbol, "")
  }

  /** `Pair(symbol, trade_currency, base_currency)`: note the order of the
      two currency arguments, trade first and base second. */
  function NewPair(symbol: string, tradeSymbol: string, baseSymbol: string): (p: Pair)
    ensures p.symbol == symbol
    ensures p.tradeCurrency.symbol == tradeSymbol
    ensures p.baseCurrency.symbol == baseSymbol
  {
    Pair(symbol, LegCurrency(baseSymbol), LegCurrency(tradeSymbol))
  }

  /** `str(currency)`: the name followed by the symbol in parentheses. */
  function Str(c: Currency): (s: string)
    ensures |s| == |c.name| + |c.symbol| + 3
    ensures s[..|c.name|] == c.name
    ensures s[|c.name|..|c.name| + 2] == " ("
    ensures s[|c.name| + 2..|s| - 1] == c.symbol
    ensures s[|s| - 1] == ')'
  {
    var s := c.name + " (" + c.symbol + ")";
    assert s[..|c.name|] == c.name;
    assert s[|c.name| + 2..|s| - 1] == c.symbol;
    s
  }

  /** `repr(currency)` renders exactly as `str(currency)` does. */
  function Repr(c: Currency): (s: string)
    ensures s == Str(c)
  {
    c.name + " (" + c.symbol + ")"
  }

  /** Two renderings of currencies with the same name agree only if the
      symbols agree: the rendering never loses the symbol. */
  lemma {:induction false} StrKeepsSymbol(a: Currency, b: Currency)
    requires a.name == b.name
    ensures Str(a) == Str(b) <==> a.symbol == b.symbol
  {
    if Str(a) == Str(b) {
      calc {
        a.symbol;
        Str(a)[|a.name| + 2..|Str(a)| - 1];
        Str(b)[|b.name| + 2..|Str(b)| - 1];
        b.symbol;
      }
    }
  }

  /** The fixed fiat list: dollar, pound and euro, in that order. */
  const FIAT: seq<Currency> := [Fiat("USD", "Dollar"), Fiat("GBP", "British Pound"), Fiat("EUR", "Euro")]

  /** `load_from_coinmarketcap`, with the market-data listing passed in:
      one plain currency per record, in record order. */
  function LoadFromCoinMarketCap(records: seq<CoinRecord>): (cs: seq<Currency>)
    ensures |cs| == |records|
    ensures forall i :: 0 <= i < |records| ==> cs[i] == NewCurrency(records[i].symbol, records[i].name)
  {
    if records == [] then []
    else [NewCurrency(records[0].symbol, records[0].name)] + LoadFromCoinMarketCap(records[1..])
  }

  /** `CURRENCIES = FIAT + COINS`: the fiat list first, then the coins. */
  function AllCurrencies(records: seq<CoinRecord>): (cs: seq<Currency>)
    ensures |cs| == |FIAT| + |records|
    ensures cs[..|FIAT|] == FIAT && cs[|FIAT|..] == LoadFromCoinMarketCap(records)
    ensures forall i, j :: 0 <= i < j < |cs| && cs[j].Fiat? ==> cs[i].Fiat?
    ensures cs[0].symbol == "USD" && cs[1].symbol == "GBP" && cs[2].symbol == "EUR"
  {
    FIAT + LoadFromCoinMarketCap(records)
  }

  // ---------------------------------------------------------------------
  // Symbols: the identity of currencies and pairs

  /** The symbols of a list of currencies, in order. */
  function Symbols(cs: seq<Currency>): (ss: seq<string>)
    ensures |ss| == |cs|
    ensures forall i :: 0 <= i < |cs| ==> ss[i] == cs[i].symbol
  {
    seq(|cs|, i requires 0 <= i < |cs| => cs[i].symbol)
  }

  /** No two currencies of the list share a symbol. */
  predicate NoDupSymbols(cs: seq<Currency>) {
    forall i, j :: 0 <= i < j < |cs| ==> cs[i].symbol != cs[j].symbol
  }

  /** The currencies of `cs` with repeated symbols dropped, keeping the first
      currency seen for each symbol (Python's `list(set(...))`). */
  function DistinctBySymbol(cs: seq<Currency>): (r: seq<Currency>)
    ensures NoDupSymbols(r)
    ensures forall c :: c in r ==> c in cs
    ensures forall i :: 0 <= i < |cs| ==> cs[i].symbol in Symbols(r)
    decreases |cs|
  {
    if cs == [] then []
    else
      var r := DistinctBySymbol(cs[..|cs| - 1]);
      var c := cs[|cs| - 1];
      assert forall i :: 0 <= i < |cs| - 1 ==> cs[i] == cs[..|cs| - 1][i];
      if c.symbol in Symbols(r) then r
      else
        assert Symbols(r + [c]) == Symbols(r) + [c.symbol];
        r + [c]
  }

  /** On a list without repeated symbols, removing repeats changes nothing. */
  lemma {:induction false} DistinctOfNoDups(cs: seq<Currency>)
    requires NoDupSymbols(cs)
    ensures DistinctBySymbol(cs) == cs
    decreases |cs|
  {
    if cs != [] {
      var init, c := cs[..|cs| - 1], cs[|cs| - 1];
      assert NoDupSymbols(init) by {
        forall i, j | 0 <= i < j < |init| ensures init[i].symbol != init[j].symbol {
          assert init[i] == cs[i] && init[j] == cs[j];
        }
      }
      DistinctOfNoDups(init);
      assert c.symbol !in Symbols(init) by {
        forall k | 0 <= k < |init| ensures Symbols(init)[k] != c.symbol {
          assert init[k] == cs[k];
        }
      }
      assert init + [c] == cs;
    }
  }

  // ---------------------------------------------------------------------
  // Ordering of symbols (Python's `<` on strings)

  /** Lexicographic order on code points; a proper prefix comes first. */
  predicate SymbolLess(a: string, b: string)
    decreases |a|
  {
    if a == [] then b != []
    else if b == [] then false
    else a[0] < b[0] || (a[0] == b[0] && SymbolLess(a[1..], b[1..]))
  }

  lemma {:induction false} SymbolLessIrreflexive(a: string)
    ensures !SymbolLess(a, a)
    decreases |a|
  {
    if a != [] {
      SymbolLessIrreflexive(a[1..]);
    }
  }

  lemma {:induction false} SymbolLessTransitive(a: string, b: string, c: string)
    requires SymbolLess(a, b) && SymbolLess(b, c)
    ensures SymbolLess(a, c)
    decreases |a|
  {
    if a != [] && b != [] && c != [] && a[0] == b[0] && b[0] == c[0] {
      SymbolLessTransitive(a[1..], b[1..], c[1..]);
    }
  }

  lemma {:induction false} SymbolLessTotal(a: string, b: string)
    requires a != b
    ensures SymbolLess(a, b) || SymbolLess(b, a)
    decreases |a|
  {
    if a != [] && b != [] && a[0] == b[0] {
      assert a == [a[0]] + a[1..] && b == [b[0]] + b[1..];
      SymbolLessTotal(a[1..], b[1..]);
    }
  }

  /** Pairs are ordered by their symbols. */
  predicate PairLess(p: Pair, q: Pair) {
    SymbolLess(p.symbol, q.symbol)
  }

  /** The symbols of a list of pairs, in order. */
  function PairSymbols(ps: seq<Pair>): (ss: seq<string>)
    ensures |ss| == |ps|
    ensures forall i :: 0 <= i < |ps| ==> ss[i] == ps[i].symbol
  {
    seq(|ps|, i requires 0 <= i < |ps| => ps[i].symbol)
  }

  /** Python's `pairs[pairs.index(symbol)]`: the first pair with that symbol,
      absent when no pair has it. */
  function LookupPair(ps: seq<Pair>, symbol: string): (r: Option<Pair>)
    ensures r.Some? ==> r.value in ps && r.value.symbol == symbol
    ensures r.Some? ==> exists k :: 0 <= k < |ps| && ps[k] == r.value && forall j :: 0 <= j < k ==> ps[j].symbol != symbol
    ensures r.None? <==> symbol !in PairSymbols(ps)
  {
    match IndexOf(PairSymbols(ps), symbol)
    case None => None
    case Some(k) =>
      assert forall j :: 0 <= j < k ==> PairSymbols(ps)[j] == ps[j].symbol;
      Some(ps[k])
  }

  /** Python's `currencies[currencies.index(symbol)]`: the first currency
      with that symbol. */
  function LookupCurrency(cs: seq<Currency>, symbol: string): (r: Option<Currency>)
    ensures r.Some? ==> r.value in cs && r.value.symbol == symbol
    ensures r.Some? ==> exists k :: 0 <= k < |cs| && cs[k] == r.value && forall j :: 0 <= j < k ==> cs[j].symbol != symbol
    ensures r.None? <==> symbol !in Symbols(cs)
  {
    match IndexOf(Symbols(cs), symbol)
    case None => None
    case Some(k) =>
      assert forall j :: 0 <= j < k ==> Symbols(cs)[j] == cs[j].symbol;
      Some(cs[k])
  }
}
