# cryptotracker ledger, modelled in Dafny

This project models the bookkeeping core of cryptotracker, a portfolio tracker
for a Binance account. It covers:

- the currency and trading-pair records of `lib/currency.py`, with their
  rendering and the fiat-first currency list;
- the `Amount` and `Transaction` records of `lib/exchange.py`: currency-checked
  addition of amounts, Python's `sum` over amounts, merging of transactions,
  the permissive type tag, `mergeAmounts`, and the order by time;
- the `Binance` class (`get_pairs`, `get_balances`, `get_trade_history`,
  `get_transfer_history`, `get_all_transactions`).
  - Each answer of the exchange client becomes a parameter of the method that
    asks for it: the listed symbols, the balances, the trades of each pair
    (a function from pair symbol to trades) and the deposit history.

Modules, one per concern:

| file | module | models |
|---|---|---|
| `common.dfy` | `Common` | `Option`, `Result` (a value or the exception raised), `list.index` |
| `currency.dfy` | `Currencies` | `lib/currency.py` |
| `amount.dfy` | `Amounts` | `Amount` and `sum` |
| `transaction.dfy` | `Transactions` | `Transaction` (a class: `mergeAmounts` updates its amounts in place) and the time sort |
| `exchange.dfy` | `Exchange` | record conversion and the `Binance` class, whose methods update its fields |

Conventions of the model:

- **Identity.** A currency or pair is identified by its symbol. Every lookup
  in the source searches by symbol string, while `Currency` and `Pair` define
  no equality of their own; so "in", "index" and "==" compare symbols.
- **Numbers.** Money is `real`, exact rather than floating point.
- **Time.** Times are integer milliseconds, ordered as instants (see "## Left out").
- **Set order.** Python's `list(set(...))` iterates in an unspecified order.
  The model keeps the first element seen per symbol, in order of first
  occurrence.
- **Exceptions.** A raised exception is a `Failure`:
  - `list.index` on a missing symbol is `NotFound(symbol)`;
  - adding amounts of two currencies is `CurrencyMismatch`.
- **Transactions as values.** A transaction's fields are compared through
  `View()`, the four fields as one `TxView` value. `Views(ts)` gives the
  values of a list of transactions. The functions that specify the methods
  (`TradeTx`, `TradeHistory`, `AllTrades`, `DepositTx`, `TransferHistory`)
  compute such values. The methods build real `Transaction` objects and are
  proved to agree with them.

Where the code cannot run as written, the model follows the evident intent:

- `Pair.__init__` calls the two-argument `Currency` constructor with one
  argument (`lib/currency.py:17-18`). A leg currency here is a plain
  currency with that symbol and an empty name (`LegCurrency`).
- The `FIAT` list lacks a comma between its second and third entries
  (`lib/currency.py:97`). It is modelled as the three fiat currencies USD,
  GBP, EUR.
- `TRADE_CURRENCIES` is imported from `lib/currency.py` but not defined
  there. It is the constructor argument `tradeCurrencies` of `Binance`: a list
  of trade currencies, each with a symbol and the alias the exchange lists it
  under.
- `traded_pairs.sort()` sorts `Pair` objects, which define no `<`. The pairs
  are sorted by symbol.

## Model

| member | source | states |
|---|---|---|
| Currencies.NewCurrency | cryptotracker/lib/currency.py:26-29 | a currency keeps the symbol and the name exactly as given |
| Currencies.NewPair | cryptotracker/lib/currency.py:14-18 | the symbol is kept; the second argument becomes the trade currency and the third the base currency |
| Currencies.LegCurrency | cryptotracker/lib/currency.py:17-18 | the currency of a pair leg is a plain currency with the leg's symbol |
| Currencies.Str | cryptotracker/lib/currency.py:31-32 | the rendering is the name, then " (", then the symbol, then ")" |
| Currencies.Repr | cryptotracker/lib/currency.py:34-35 | `repr` renders exactly as `str` does |
| Currencies.StrKeepsSymbol | cryptotracker/lib/currency.py:31-32 | for currencies of the same name, the renderings agree exactly when the symbols agree |
| Currencies.LoadFromCoinMarketCap | cryptotracker/lib/currency.py:73-77 | one currency per market record, in record order, with that record's symbol and name |
| Currencies.AllCurrencies | cryptotracker/lib/currency.py:95-105 | the list is USD, GBP, EUR followed by the loaded coins; no fiat currency comes after a non-fiat one |
| Currencies.DistinctBySymbol | cryptotracker/lib/exchange.py:59 | `list(set(...))` keeps no repeated symbol, adds nothing, and loses no symbol |
| Currencies.DistinctOfNoDups | cryptotracker/lib/exchange.py:59 | on a list without repeated symbols, removing repeats changes nothing |
| Currencies.LookupCurrency | cryptotracker/lib/exchange.py:112 | `currencies[currencies.index(s)]` is the first currency of the list with symbol `s`, and is absent exactly when no currency has that symbol |
| Currencies.LookupPair | cryptotracker/lib/exchange.py:126 | `pairs[pairs.index(s)]` is the first pair of the list with symbol `s`, and is absent exactly when no pair has that symbol |
| Currencies.SymbolLessTransitive | cryptotracker/lib/exchange.py:99 | the order used to sort pairs by symbol is transitive |
| Currencies.SymbolLessTotal | cryptotracker/lib/exchange.py:99 | any two different symbols are ordered one way or the other |
| Currencies.SymbolLessIrreflexive | cryptotracker/lib/exchange.py:99 | no symbol is below itself |
| Common.IndexOf | cryptotracker/lib/exchange.py:68 | `list.index` returns the first position holding the value, and fails exactly when the value is absent |
| Amounts.Add | cryptotracker/lib/exchange.py:210-220 | adding an amount of another currency fails with a currency mismatch; otherwise the value of the right operand (`float`, which for an amount is its value) is added and the left currency is kept |
| Amounts.RAdd | cryptotracker/lib/exchange.py:216-217 | a number plus an amount never fails: the value is the sum and the currency is the amount's |
| Amounts.AddSymmetric | cryptotracker/lib/exchange.py:210-214 | `a + b` fails exactly when `b + a` fails, and otherwise both have the same value |
| Amounts.Sum | cryptotracker/lib/exchange.py:192 | `sum` of no amounts is its start value 0; a `sum` of amounts that succeeds is an amount in the currency of the first one |
| Amounts.SumOneCurrency | cryptotracker/lib/exchange.py:192 | `sum` of a non-empty list in one currency succeeds with the total, in that currency |
| Amounts.SumMixedFails | cryptotracker/lib/exchange.py:192 | `sum` of a list that mixes currencies raises a currency mismatch |
| Transactions.Name | cryptotracker/lib/exchange.py:142 | every type's name is one of the six member names |
| Transactions.ParseTxType | cryptotracker/lib/exchange.py:157-160 | a known tag gives the member of that name; a missing or unknown tag gives `unknown` without error |
| Transactions.NameRoundTrip | cryptotracker/lib/exchange.py:142 | parsing a member's name gives the member back, and different members have different names |
| Transactions.Merge | cryptotracker/lib/exchange.py:174-179 | pair kept iff both pairs agree, else none; time is the later of the two; type kept iff both agree, else `cummulative`; amounts concatenated, so the lengths add |
| Transactions.MergeWithEmpty | cryptotracker/lib/exchange.py:171-172 | merging with an empty transaction of the same pair, time and type gives the transaction back |
| Transactions.MergeAssociative | cryptotracker/lib/exchange.py:168-179 | merging is associative |
| Transactions.Transaction.constructor | cryptotracker/lib/exchange.py:144-160 | pair, time and amounts are stored as given; the type is the parsed tag |
| Transactions.Transaction.Add | cryptotracker/lib/exchange.py:168-179 | `self + tx` is a new transaction whose fields are the merge of the two |
| Transactions.Transaction.AddOther | cryptotracker/lib/exchange.py:168-182 | adding anything but a transaction, or `__radd__`, yields a new transaction equal to `self` field by field |
| Transactions.LessIsStrictWeakOrder | cryptotracker/lib/exchange.py:184-185 | `<` on transactions is irreflexive and transitive, and two transactions are incomparable exactly when they share a time |
| Transactions.Group | cryptotracker/lib/exchange.py:190 | a group holds only amounts of its currency, and is empty exactly when that currency does not occur |
| Transactions.GroupHoldsAll | cryptotracker/lib/exchange.py:190 | the group of a currency holds every amount of that currency, as often as it occurs, and nothing else |
| Transactions.GroupSums | cryptotracker/lib/exchange.py:190-192 | one sum per currency, in the order of the currencies, each the `sum` of that currency's group and in that currency |
| Transactions.GroupSum | cryptotracker/lib/exchange.py:192 | the amount given is what `sum` returns for the group |
| Transactions.Merged | cryptotracker/lib/exchange.py:189-192 | the merged amounts have no two in one currency |
| Transactions.MergedSums | cryptotracker/lib/exchange.py:189-192 | exactly the original currencies are kept; each merged value is the total of that currency's amounts, and is what `sum` returns for them |
| Transactions.MergedOfDistinct | cryptotracker/lib/exchange.py:187-192 | amounts with no two in one currency are already merged |
| Transactions.MergedIdempotent | cryptotracker/lib/exchange.py:187-192 | merging twice gives the same as merging once |
| Transactions.Transaction.MergeAmounts | cryptotracker/lib/exchange.py:187-192 | the amounts become the merged amounts, and pair, time and type are unchanged |
| Transactions.AtTimeAppend | cryptotracker/lib/exchange.py:95 | the transactions at a given time of a concatenation are those of the first part, then those of the second |
| Transactions.InsertByTimePermutes | cryptotracker/lib/exchange.py:96 | one insertion step keeps exactly the same transactions |
| Transactions.InsertByTimeAtTime | cryptotracker/lib/exchange.py:96 | one insertion step keeps the order of the transactions at each time |
| Transactions.InsertByTimeSorted | cryptotracker/lib/exchange.py:96 | inserting into a list sorted by time keeps it sorted |
| Transactions.SortByTimeSorted | cryptotracker/lib/exchange.py:96 | the sorted ledger is in non-decreasing time order |
| Transactions.SortByTimePermutes | cryptotracker/lib/exchange.py:96 | the sorted ledger holds exactly the transactions it was built from |
| Transactions.SortByTimeStable | cryptotracker/lib/exchange.py:96 | the sort is stable: transactions that share a time keep their order |
| Exchange.ListedPairs | cryptotracker/lib/exchange.py:53 | one pair per listed symbol, in order, keeping its symbol; the base asset becomes the trade currency and the quote asset the base currency |
| Exchange.PairCurrencies | cryptotracker/lib/exchange.py:58-59 | the currencies of the pairs have no repeated symbol |
| Exchange.PairCurrenciesCover | cryptotracker/lib/exchange.py:58-59 | both currencies of every pair are among them |
| Exchange.PairCurrenciesFromPairs | cryptotracker/lib/exchange.py:58-59 | each of them is a currency of some pair |
| Exchange.CandidateSymbols | cryptotracker/lib/exchange.py:62-66 | three guesses per trade currency, in order: its alias followed by BNB, ETH and BTC |
| Exchange.SelectListed | cryptotracker/lib/exchange.py:68 | the traded pairs' symbols are the guesses that are listed, in guess order and with repeats; each is the first listed pair with its symbol |
| Exchange.SelectListedComplete | cryptotracker/lib/exchange.py:68 | every guessed symbol that is listed has its pair among the traded pairs |
| Exchange.KnownOnlyComplete | cryptotracker/lib/exchange.py:68 | the filter `if s in pairs` keeps every guess that is listed |
| Exchange.Binance.constructor | cryptotracker/lib/exchange.py:31-34 | a new account holds the trade currencies and nothing fetched yet |
| Exchange.Binance.GetPairs | cryptotracker/lib/exchange.py:50-68 | pairs are the listed pairs plus BTCEUR and ETHEUR; currencies are their distinct currencies; traded pairs are the listed candidates, the candidates being built by the loop |
| Exchange.HoldingOf | cryptotracker/lib/exchange.py:77-79 | a holding is the known currency with the balance's asset symbol, worth free plus locked |
| Exchange.Inventory | cryptotracker/lib/exchange.py:70-80 | the inventory has at most one holding per balance |
| Exchange.InventoryComplete | cryptotracker/lib/exchange.py:73-80 | every balance that is positive or of a trade currency, and of a known currency, is in the inventory |
| Exchange.InventorySound | cryptotracker/lib/exchange.py:73-80 | every holding comes from such a balance: it is in a known currency and is positive unless it is a trade currency |
| Exchange.Warnings | cryptotracker/lib/exchange.py:82-83 | at most one warning per balance |
| Exchange.WarningsComplete | cryptotracker/lib/exchange.py:77-83 | every kept balance that is not a trade currency is warned about |
| Exchange.WarningsSound | cryptotracker/lib/exchange.py:77-83 | a warning names a known currency that is not a trade currency and has a positive balance |
| Exchange.Binance.GetBalances | cryptotracker/lib/exchange.py:70-83 | the loop builds the inventory and the warnings of all the balances |
| Exchange.TradeAmounts | cryptotracker/lib/exchange.py:106-115 | three amounts: for a buy +qty in the trade currency and −qty·price in the base currency, with both signs flipped for a sell, then −commission in the fee currency |
| Exchange.TradeLegsBalance | cryptotracker/lib/exchange.py:106-110 | the base leg is minus the trade leg times the price; a sell mirrors the buy of the same quantity |
| Exchange.TradeTx | cryptotracker/lib/exchange.py:103-116 | fails with `NotFound` exactly when the commission asset is unknown; otherwise a buy or sell on the pair at the trade's time with the three trade amounts, the fee charged in the first known currency with the commission asset's symbol |
| Exchange.TradeHistory | cryptotracker/lib/exchange.py:119-120 | on success, one transaction per trade, each the conversion of its trade |
| Exchange.TradeHistoryConverts | cryptotracker/lib/exchange.py:119-120 | the history converts exactly when every trade converts |
| Exchange.TradeHistorySnoc | cryptotracker/lib/exchange.py:120 | converting one more trade appends its transaction |
| Exchange.TradeHistoryStops | cryptotracker/lib/exchange.py:120 | the first trade that fails decides the error |
| Exchange.TradeHistoryAreTrades | cryptotracker/lib/exchange.py:103-120 | every transaction of a pair's history is a buy or sell of three amounts on that pair |
| Exchange.Binance.CreateTradeTransaction | cryptotracker/lib/exchange.py:103-116 | fails with the conversion's error, or returns a new transaction whose fields are the conversion of the trade |
| Exchange.Binance.GetTradeHistory | cryptotracker/lib/exchange.py:101-120 | succeeds exactly when the history converts, with its error otherwise, and the transactions' fields are the converted history |
| Exchange.AllTradesConverts | cryptotracker/lib/exchange.py:88 | the trades of all pairs convert exactly when each pair's trades convert |
| Exchange.AllTradesSnoc | cryptotracker/lib/exchange.py:88-92 | fetching one more pair appends that pair's history |
| Exchange.AllTradesStops | cryptotracker/lib/exchange.py:88 | the first pair whose history fails decides the error |
| Exchange.AllTradesAreTrades | cryptotracker/lib/exchange.py:88-92 | every collected transaction is a buy or sell of three amounts on one of the pairs asked for |
| Exchange.Binance.FetchTrades | cryptotracker/lib/exchange.py:87-92 | the flattened trades of all traded pairs: succeeds exactly when all convert, and the fields are the converted trades in pair order |
| Exchange.DepositTx | cryptotracker/lib/exchange.py:124-131 | an unknown asset fails with `NotFound` of the asset, a missing euro pair with `NotFound` of the pair symbol, and it succeeds exactly when both exist |
| Exchange.DepositTxShape | cryptotracker/lib/exchange.py:124-131 | a converted deposit is of type deposit at the insertion time, on the first listed pair with the asset's euro symbol, with one amount: the deposited quantity of the first known currency with the asset's symbol |
| Exchange.TransferHistory | cryptotracker/lib/exchange.py:133-134 | on success, one transaction per deposit, each the conversion of its deposit |
| Exchange.TransferHistoryConverts | cryptotracker/lib/exchange.py:133-134 | the transfers convert exactly when every deposit converts |
| Exchange.TransferHistorySnoc | cryptotracker/lib/exchange.py:134 | converting one more deposit appends its transaction |
| Exchange.TransferHistoryStops | cryptotracker/lib/exchange.py:134 | the first deposit that fails decides the error |
| Exchange.TransfersAreDeposits | cryptotracker/lib/exchange.py:124-134 | every transfer is a single-amount deposit of its record's quantity, asset and time |
| Exchange.Binance.CreateDepositTransaction | cryptotracker/lib/exchange.py:124-131 | fails with the conversion's error, or returns a new transaction whose fields are the conversion of the deposit |
| Exchange.Binance.GetTransferHistory | cryptotracker/lib/exchange.py:122-134 | succeeds exactly when the transfers convert, with their error otherwise, and the transactions' fields are the converted deposits |
| Exchange.InsertPair | cryptotracker/lib/exchange.py:98-99 | inserting into a list sorted by symbol keeps it strictly sorted, adds only the pair, loses nothing, and leaves its symbol present |
| Exchange.SortedCons | cryptotracker/lib/exchange.py:99 | a pair below every pair of a sorted list can go in front of it |
| Exchange.DistinctSortedPairs | cryptotracker/lib/exchange.py:98-99 | the distinct pairs are strictly sorted by symbol |
| Exchange.DistinctSortedPairsExact | cryptotracker/lib/exchange.py:98-99 | they come from the list, and every symbol of the list is among them |
| Exchange.PairsOf | cryptotracker/lib/exchange.py:98 | the pairs listed are exactly the pairs of the transactions that have one |
| Exchange.TradedPairsSound | cryptotracker/lib/exchange.py:98-99 | the traded pairs are sorted by symbol without repeats, each is the pair of some trade, and every trade's pair is among them |
| Exchange.FlattenSnoc | cryptotracker/lib/exchange.py:92 | flattening one more list appends it |
| Exchange.ViewsAppend | cryptotracker/lib/exchange.py:92-95 | the values of a concatenation are the values of its parts, concatenated |
| Exchange.Binance.GetAllTransactions | cryptotracker/lib/exchange.py:85-99 | a failing trade conversion changes nothing; otherwise the trades are the converted trades, then a failing transfer conversion leaves the rest unchanged; on success the transfers are the converted deposits, the ledger is the time sort of trades then transfers, and the traded pairs are recomputed from the trades |
| Exchange.Binance.RecordTransfers | cryptotracker/lib/exchange.py:93-99 | the transfers, the sorted ledger and the traded pairs, or the transfer error with those fields unchanged |
| Exchange.LedgerIsSortedPermutation | cryptotracker/lib/exchange.py:95-96 | the ledger is sorted by time, holds exactly the trades and the transfers, and keeps their order among transactions that share a time |

## Left out

- The exchange client is not modelled: `connect`, `disconnect`, `get_exchange_info`, `get_account`, `get_my_trades` and `get_deposit_history` are network I/O. Their answers are method parameters.
- The thread pool of `get_all_transactions` is concurrency. The pairs are fetched one after another in pair order. `pool.map` returns results in that same order.
- Exchange.Binance.FetchTrades: when several pairs fail, the model reports the first pair's error. Under the thread pool, which exception surfaces is not determined.
- The `print` calls are output only:
  - the warning in `get_balances` is returned as the list `warnings`;
  - the progress line in `get_trade_history` is dropped.
- `deepcopy` of the currency in `get_balances` has no counterpart. A holding is a value pairing the currency with its amount, instead of a copy with an added `amount` attribute.
- `Coin.__init__` sets arbitrary attributes from a dictionary, so it has no fixed shape to model.
- `CoinMarketCap`, `Market()`, `load_from_csv` and the module-level calls `COINS = load_from_coinmarketcap()` and `b = test()` are network, file and import-time effects. `LoadFromCoinMarketCap` takes the market records as input.
- The `__str__` and `__repr__` of `Transaction` and `Amount` format Python objects and datetimes, which this model does not render.
- Floating point is not modelled; money is exact.
- `datetime.fromtimestamp` is not modelled: a time stays integer milliseconds, so the model orders transactions by instant. The source converts to a naive local datetime and orders by local wall-clock time. Around a daylight-saving fall-back, a later instant can compare earlier, or two instants an hour apart compare equal. There `__lt__`, the `max` in `__add__` and `txlist.sort()` can disagree with the model's order.
- Exchange.Binance.constructor: sets every field to the empty list. The source defines none of them before `get_pairs`, so calling `get_balances` or `get_all_transactions` first raises `AttributeError` there, while the model returns empty results.
- Exchange.Binance.CreateTradeTransaction, Exchange.Binance.CreateDepositTransaction: state that the returned transaction is fresh. The history methods state only its fields, not freshness, so that the proofs stay small.
- Exchange.Binance.GetPairs, Exchange.Binance.GetBalances, Exchange.Binance.GetAllTransactions: the source's `pairs.append`, `inventory.append` and in-place `sort` reassign a `seq` field here, so aliasing of those lists is not modelled.
- `lib/portfolio.py` and `main.py` are not part of this model: they hold stubs and entry-point glue.
