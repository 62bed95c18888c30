/** Transactions (the `Transaction` record of lib/exchange.py): a timestamped
    bundle of amounts tied to a pair, with a type tag; how two transactions
    merge, how amounts of one currency are folded together, and the order by
    time in which the ledger is sorted. Times are integer milliseconds. */
module Transactions {
  import opened Common
  import opened Currencies
  import opened Amounts

  // ---------------------------------------------------------------------
  // Transaction types

  /** The members of `TxTypes`, including the source's own spelling of
      `cummulative`. */
  datatype TxType = Withdrawal | Deposit | Buy | Sell | Cummulative | Unknown

  const TYPE_NAMES: seq<string> := ["withdrawal", "deposit", "buy", "sell", "cummulative", "unknown"]

  /** `txtype.name`. */
  function Name(t: TxType): (s: string)
    ensures s in TYPE_NAMES
  {
    match t
    case Withdrawal => "withdrawal"
    case Deposit => "deposit"
    case Buy => "buy"
    case Sell => "sell"
    case Cummulative => "cummulative"
    case Unknown => "unknown"
  }

  /** `TxTypes[tag]` with its `KeyError` caught: a member's name selects that
      member; any other tag, and no tag at all, gives `unknown`. */
  function ParseTxType(tag: Option<string>): (t: TxType)
    ensures tag.Some? && tag.value in TYPE_NAMES ==> Name(t) == tag.value
    ensures tag.None? || tag.value !in TYPE_NAMES ==> t == Unknown
  {
    match tag
    case None => Unknown
    case Some(s) =>
      if s == "withdrawal" then Withdrawal
      else if s == "deposit" then Deposit
      else if s == "buy" then Buy
      else if s == "sell" then Sell
      else if s == "cummulative" then Cummulative
      else Unknown
  }

  /** Parsing a member's name gives that member back, and distinct members
      have distinct names. */
  lemma NameRoundTrip(t: TxType, u: TxType)
    ensures ParseTxType(Some(Name(t))) == t
    ensures Name(t) == Name(u) ==> t == u
  {
  }

  // ---------------------------------------------------------------------
  // The value of a transaction, and merging

  /** The four fields of a transaction as one value. */
  datatype TxView = TxView(pair: Option<Pair>, time: int, amounts: seq<Amount>, txtype: TxType)

  /** `pair == other_pair`, pairs being identified by symbol; `None` equals
      only `None`. */
  predicate SamePair(p: Option<Pair>, q: Option<Pair>) {
    match (p, q)
    case (None, None) => true
    case (Some(a), Some(b)) => a.symbol == b.symbol
    case _ => false
  }

  /** `Transaction.__add__` on two transactions: the pair survives only when
      both sides share it, the time is the later one, the type survives only
      when both sides share it (else `cummulative`), and the amounts are
      concatenated without folding. */
  function Merge(a: TxView, b: TxView): (r: TxView)
    ensures SamePair(a.pair, b.pair) ==> r.pair == a.pair
    ensures !SamePair(a.pair, b.pair) ==> r.pair == None
    ensures r.time >= a.time && r.time >= b.time && (r.time == a.time || r.time == b.time)
    ensures a.txtype == b.txtype ==> r.txtype == a.txtype
    ensures a.txtype != b.txtype ==> r.txtype == Cummulative
    ensures r.amounts == a.amounts + b.amounts
    ensures |r.amounts| == |a.amounts| + |b.amounts|
  {
    TxView(
      if SamePair(a.pair, b.pair) then a.pair else None,
      if a.time >= b.time then a.time else b.time,
      a.amounts + b.amounts,
      if a.txtype == b.txtype then a.txtype else Cummulative)
  }

  /** Merging with an empty transaction of the same pair, time and type gives
      the transaction back: this is what adding a non-transaction does. */
  lemma MergeWithEmpty(a: TxView)
    ensures Merge(a, TxView(a.pair, a.time, [], a.txtype)) == a
  {
    assert a.amounts + [] == a.amounts;
  }

  /** Merging is associative, so a `sum` of transactions does not depend on
      how it is bracketed. */
  lemma MergeAssociative(a: TxView, b: TxView, c: TxView)
    ensures Merge(Merge(a, b), c) == Merge(a, Merge(b, c))
  {
    assert a.amounts + b.amounts + c.amounts == a.amounts + (b.amounts + c.amounts);
  }

  // ---------------------------------------------------------------------
  // Folding amounts of one currency together

  /** The currencies of a list of amounts, in order. */
  function CurrenciesOf(xs: seq<Amount>): (cs: seq<Currency>)
    ensures |cs| == |xs|
    ensures forall i :: 0 <= i < |xs| ==> cs[i] == xs[i].currency
  {
    seq(|xs|, i requires 0 <= i < |xs| => xs[i].currency)
  }

  /** Some amount of `xs` is in the currency with symbol `s`. */
  predicate HasSymbol(xs: seq<Amount>, s: string) {
    exists i :: 0 <= i < |xs| && xs[i].currency.symbol == s
  }

  /** `[a for a in amounts if a.currency == c]`, currencies compared by symbol. */
  function Group(xs: seq<Amount>, s: string): (g: seq<Amount>)
    ensures AllIn(g, s)
    ensures HasSymbol(xs, s) <==> g != []
    ensures |g| <= |xs|
    decreases |xs|
  {
    if xs == [] then []
    else
      var x := xs[|xs| - 1];
      var g := Group(xs[..|xs| - 1], s);
      assert HasSymbol(xs[..|xs| - 1], s) ==> HasSymbol(xs, s);
      assert HasSymbol(xs, s) && x.currency.symbol != s ==> HasSymbol(xs[..|xs| - 1], s);
      if x.currency.symbol == s then g + [x] else g
  }

  /** The group of a currency holds every amount of that currency, as many
      times as it occurs, and nothing else. */
  lemma {:induction false} GroupHoldsAll(xs: seq<Amount>, s: string)
    ensures forall a :: multiset(Group(xs, s))[a] == (if a.currency.symbol == s then multiset(xs)[a] else 0)
    decreases |xs|
  {
    if xs != [] {
      var init, x := xs[..|xs| - 1], xs[|xs| - 1];
      GroupHoldsAll(init, s);
      assert xs == init + [x];
      assert multiset(xs) == multiset(init) + multiset{x};
    }
  }

  /** `sum(group)` for a non-empty group of one currency: the total of the
      group in the currency of its first amount, which is what Python's `sum`
      returns for it. */
  function GroupSum(g: seq<Amount>): (a: Amount)
    requires g != [] && AllIn(g, g[0].currency.symbol)
    ensures Sum(g) == Success(Acc(a))
  {
    SumOneCurrency(g);
    Amount(Total(g), g[0].currency)
  }

  /** `mergeAmounts`: one amount per distinct currency of `xs`, holding the
      sum of that currency's amounts. The currencies come in order of first
      occurrence. */
  function Merged(xs: seq<Amount>): (r: seq<Amount>)
    ensures NoDupSymbols(CurrenciesOf(r))
  {
    var cs := DistinctBySymbol(CurrenciesOf(xs));
    assert forall c :: c in cs ==> HasSymbol(xs, c.symbol);
    var r := GroupSums(xs, cs);
    assert Symbols(CurrenciesOf(r)) == Symbols(cs);
    r
  }

  /** Merging keeps exactly the currencies of `xs`, and each merged amount is
      what `sum` yields over the amounts of its currency: their total. */
  lemma MergedSums(xs: seq<Amount>)
    ensures forall i :: 0 <= i < |Merged(xs)| ==> HasSymbol(xs, Merged(xs)[i].currency.symbol)
    ensures forall i :: 0 <= i < |xs| ==> xs[i].currency.symbol in Symbols(CurrenciesOf(Merged(xs)))
    ensures forall i :: 0 <= i < |Merged(xs)| ==>
              Merged(xs)[i].amount == Total(Group(xs, Merged(xs)[i].currency.symbol))
    ensures forall i :: 0 <= i < |Merged(xs)| ==>
              Sum(Group(xs, Merged(xs)[i].currency.symbol)) == Success(Acc(Merged(xs)[i]))
  {
    var cs := DistinctBySymbol(CurrenciesOf(xs));
    assert forall c :: c in cs ==> HasSymbol(xs, c.symbol);
    var r := GroupSums(xs, cs);
    assert r == Merged(xs);
    assert Symbols(CurrenciesOf(r)) == Symbols(cs);
  }

  /** `[sum(group) for group in groups]`, one group per currency of `cs`. */
  function GroupSums(xs: seq<Amount>, cs: seq<Currency>): (r: seq<Amount>)
    requires forall c :: c in cs ==> HasSymbol(xs, c.symbol)
    ensures |r| == |cs|
    ensures forall k :: 0 <= k < |cs| ==> r[k] == GroupSum(Group(xs, cs[k].symbol))
    ensures forall k :: 0 <= k < |cs| ==> r[k].currency.symbol == cs[k].symbol
  {
    seq(|cs|, k requires 0 <= k < |cs| => GroupSum(Group(xs, cs[k].symbol)))
  }

  /** A list of amounts with no two in one currency is already merged. */
  lemma {:induction false} MergedOfDistinct(ys: seq<Amount>)
    requires NoDupSymbols(CurrenciesOf(ys))
    ensures Merged(ys) == ys
  {
    var cs := CurrenciesOf(ys);
    DistinctOfNoDups(cs);
    var r := Merged(ys);
    assert r == GroupSums(ys, cs);
    forall k | 0 <= k < |ys| ensures r[k] == ys[k] {
      GroupOfDistinct(ys, k);
      SingleGroupSum(ys[k]);
    }
    assert r == ys;
  }

  lemma SingleGroupSum(y: Amount)
    ensures GroupSum([y]) == y
  {
    assert [y][..0] == [];
    assert Total([y]) == Total([]) + y.amount;
  }

  /** In a list with no two amounts in one currency, each currency's group is
      that one amount. */
  lemma {:induction false} GroupOfDistinct(ys: seq<Amount>, k: nat)
    requires NoDupSymbols(CurrenciesOf(ys)) && k < |ys|
    ensures Group(ys, ys[k].currency.symbol) == [ys[k]]
    decreases |ys|
  {
    var init := ys[..|ys| - 1];
    assert NoDupSymbols(CurrenciesOf(init)) by {
      forall i, j | 0 <= i < j < |init|
        ensures CurrenciesOf(init)[i].symbol != CurrenciesOf(init)[j].symbol
      {
        assert init[i] == ys[i] && init[j] == ys[j];
        assert CurrenciesOf(ys)[i].symbol != CurrenciesOf(ys)[j].symbol;
      }
    }
    if k == |ys| - 1 {
      assert !HasSymbol(init, ys[k].currency.symbol) by {
        forall i | 0 <= i < |init| ensures init[i].currency.symbol != ys[k].currency.symbol {
          assert init[i] == ys[i];
          assert CurrenciesOf(ys)[i].symbol != CurrenciesOf(ys)[k].symbol;
        }
      }
    } else {
      assert init[k] == ys[k];
      GroupOfDistinct(init, k);
      assert CurrenciesOf(ys)[k].symbol != CurrenciesOf(ys)[|ys| - 1].symbol;
    }
  }

  /** Merging amounts a second time changes nothing. */
  lemma MergedIdempotent(xs: seq<Amount>)
    ensures Merged(Merged(xs)) == Merged(xs)
  {
    MergedOfDistinct(Merged(xs));
  }

  // ---------------------------------------------------------------------
  // The transaction object

  /** A transaction. Pair, time and type never change after construction;
      `mergeAmounts` reassigns the amounts. */
  class Transaction {
    const pair: Option<Pair>
    const time: int
    const txtype: TxType
    var amounts: seq<Amount>

    /** `Transaction(pair, time, amounts, txtype)`: the tag is parsed
        permissively. */
    constructor (pair: Option<Pair>, time: int, amounts: seq<Amount>, tag: Option<string>)
      ensures this.pair == pair && this.time == time && this.amounts == amounts
      ensures txtype == ParseTxType(tag)
    {
      this.pair := pair;
      this.time := time;
      this.amounts := amounts;
      this.txtype := ParseTxType(tag);
    }

    function View(): TxView
      reads this`amounts
    {
      TxView(pair, time, amounts, txtype)
    }

    /** `self + tx` for another transaction: a new transaction, built from
        the merged fields by way of the type's name. */
    method Add(tx: Transaction) returns (r: Transaction)
      ensures fresh(r)
      ensures r.View() == Merge(View(), tx.View())
    {
      var v := Merge(View(), tx.View());
      NameRoundTrip(v.txtype, v.txtype);
      r := new Transaction(v.pair, v.time, v.amounts, Some(Name(v.txtype)));
    }

    /** `self + x` for anything that is not a transaction, and `x + self`
        (`__radd__`): `x` is replaced by an empty transaction of the same
        pair, time and type, so the result equals `self` field by field. */
    method AddOther() returns (r: Transaction)
      ensures fresh(r)
      ensures r.View() == View()
    {
      NameRoundTrip(txtype, txtype);
      var empty := new Transaction(pair, time, [], Some(Name(txtype)));
      r := Add(empty);
      MergeWithEmpty(View());
    }

    /** `self < tx`: transactions are ordered by time alone. */
    predicate Less(tx: Transaction) {
      time < tx.time
    }

    /** `mergeAmounts`: the amounts become one per currency. */
    method MergeAmounts()
      modifies this
      ensures amounts == Merged(old(amounts))
      ensures View() == old(View()).(amounts := Merged(old(amounts)))
    {
      amounts := Merged(amounts);
    }
  }

  /** The order `Less` is a strict weak order: irreflexive, transitive, and
      two transactions neither of which is less than the other share a time. */
  lemma LessIsStrictWeakOrder(a: Transaction, b: Transaction, c: Transaction)
    ensures !a.Less(a)
    ensures a.Less(b) && b.Less(c) ==> a.Less(c)
    ensures !a.Less(b) && !b.Less(a) <==> a.time == b.time
  {
  }

  /** The values of a list of transactions. */
  function Views(ts: seq<Transaction>): (vs: seq<TxView>)
    reads ts
    ensures |vs| == |ts|
    ensures forall i :: 0 <= i < |ts| ==> vs[i] == ts[i].View()
  {
    seq(|ts|, i reads ts requires 0 <= i < |ts| => ts[i].View())
  }

  // ---------------------------------------------------------------------
  // Sorting by time (`list.sort()`, which is stable and uses only `<`)

  predicate SortedByTime(s: seq<Transaction>) {
    forall i, j :: 0 <= i < j < |s| ==> s[i].time <= s[j].time
  }

  /** The transactions of `s` at time `k`, in order. */
  function AtTime(s: seq<Transaction>, k: int): seq<Transaction>
    decreases |s|
  {
    if s == [] then []
    else (if s[0].time == k then [s[0]] else []) + AtTime(s[1..], k)
  }

  /** Puts `x` before the first element it is not later than. */
  function InsertByTime(x: Transaction, s: seq<Transaction>): seq<Transaction>
    decreases |s|
  {
    if s == [] then [x]
    else if !s[0].Less(x) then [x] + s
    else [s[0]] + InsertByTime(x, s[1..])
  }

  /** A stable sort by time: each element is inserted ahead of the later
      elements it is not later than. */
  function SortByTime(s: seq<Transaction>): seq<Transaction>
    decreases |s|
  {
    if s == [] then [] else InsertByTime(s[0], SortByTime(s[1..]))
  }

  /** Filtering by time distributes over concatenation. */
  lemma {:induction false} AtTimeAppend(a: seq<Transaction>, b: seq<Transaction>, k: int)
    ensures AtTime(a + b, k) == AtTime(a, k) + AtTime(b, k)
    decreases |a|
  {
    if a != [] {
      AtTimeAppend(a[1..], b, k);
      assert (a + b)[0] == a[0] && (a + b)[1..] == a[1..] + b;
      var h := if a[0].time == k then [a[0]] else [];
      assert AtTime(a + b, k) == h + AtTime(a[1..] + b, k);
      assert AtTime(a, k) == h + AtTime(a[1..], k);
      assert h + (AtTime(a[1..], k) + AtTime(b, k)) == (h + AtTime(a[1..], k)) + AtTime(b, k);
    } else {
      assert a + b == b;
    }
  }

  lemma {:induction false} InsertByTimePermutes(x: Transaction, s: seq<Transaction>)
    ensures multiset(InsertByTime(x, s)) == multiset([x] + s)
    decreases |s|
  {
    if s != [] && s[0].Less(x) {
      InsertByTimePermutes(x, s[1..]);
      assert s == [s[0]] + s[1..];
    }
  }

  lemma {:induction false} InsertByTimeAtTime(x: Transaction, s: seq<Transaction>, k: int)
    ensures AtTime(InsertByTime(x, s), k) == AtTime([x] + s, k)
    decreases |s|
  {
    if s != [] && s[0].Less(x) {
      var rest := InsertByTime(x, s[1..]);
      InsertByTimeAtTime(x, s[1..], k);
      AtTimeAppend([s[0]], rest, k);
      AtTimeAppend([x], s, k);
      AtTimeAppend([x], s[1..], k);
      AtTimeAppend([s[0]], s[1..], k);
      assert [s[0]] + s[1..] == s;
    }
  }

  lemma {:induction false} InsertByTimeSorted(x: Transaction, s: seq<Transaction>)
    requires SortedByTime(s)
    ensures SortedByTime(InsertByTime(x, s))
    decreases |s|
  {
    if s != [] && s[0].Less(x) {
      var rest := InsertByTime(x, s[1..]);
      InsertByTimeSorted(x, s[1..]);
      InsertByTimePermutes(x, s[1..]);
      forall j | 0 <= j < |rest| ensures s[0].time <= rest[j].time {
        assert rest[j] in multiset([x] + s[1..]);
      }
    }
  }

  /** The ledger order: non-decreasing in time. */
  lemma {:induction false} SortByTimeSorted(s: seq<Transaction>)
    ensures SortedByTime(SortByTime(s))
    decreases |s|
  {
    if s != [] {
      SortByTimeSorted(s[1..]);
      InsertByTimeSorted(s[0], SortByTime(s[1..]));
    }
  }

  /** The ledger holds exactly the transactions it was built from. */
  lemma {:induction false} SortByTimePermutes(s: seq<Transaction>)
    ensures multiset(SortByTime(s)) == multiset(s)
    decreases |s|
  {
    if s != [] {
      SortByTimePermutes(s[1..]);
      InsertByTimePermutes(s[0], SortByTime(s[1..]));
      assert s == [s[0]] + s[1..];
    }
  }

  /** The sort is stable: the transactions sharing any one time keep their
      relative order. */
  lemma {:induction false} SortByTimeStable(s: seq<Transaction>, k: int)
    ensures AtTime(SortByTime(s), k) == AtTime(s, k)
    decreases |s|
  {
    if s != [] {
      SortByTimeStable(s[1..], k);
      InsertByTimeAtTime(s[0], SortByTime(s[1..]), k);
      AtTimeAppend([s[0]], SortByTime(s[1..]), k);
    }
  }
}
