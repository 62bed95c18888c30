/** Amounts: a value tagged with a currency (the `Amount` record of
    lib/exchange.py), its currency-checked addition, and Python's `sum` over
    a list of amounts. Money is exact (`real`) rather than floating point. */
module Amounts {
  import opened Common
  import opened Currencies

  datatype Amount = Amount(amount: real, currency: Currency)

  /** The exceptions the ledger code raises. */
  datatype Error =
    | CurrencyMismatch(left: Currency, right: Currency)  // adding amounts of two currencies
    | NotFound(key: string)                              // `list.index` found no such symbol

  /** The right operand of `+`: another amount or a bare number. */
  datatype Operand = OfAmount(a: Amount) | OfNumber(n: real)

  /** `float(x)`: an amount converts to its value. */
  function ToNumber(x: Operand): real {
    match x
    case OfAmount(a) => a.amount
    case OfNumber(n) => n
  }

  predicate SameCurrency(c: Currency, d: Currency) {
    c.symbol == d.symbol
  }

  /** `Amount.__add__`: an amount in another currency is refused; anything
      else is added by value and the result keeps the left currency. */
  function Add(self: Amount, x: Operand): (r: Result<Amount, Error>)
    ensures r.Failure? <==> x.OfAmount? && !SameCurrency(x.a.currency, self.currency)
    ensures r.Failure? ==> r.error == CurrencyMismatch(self.currency, x.a.currency)
    ensures r.Success? ==> r.value.currency == self.currency
    ensures r.Success? ==> r.value.amount == self.amount + ToNumber(x)
  {
    if x.OfAmount? && !SameCurrency(x.a.currency, self.currency) then
      Failure(CurrencyMismatch(self.currency, x.a.currency))
    else
      Success(Amount(self.amount + ToNumber(x), self.currency))
  }

  /** `Amount.__radd__`, reached only when the left operand is a bare number
      (for an amount on the left Python calls that amount's `__add__`): the
      number takes the amount's currency, so this never fails. */
  function RAdd(n: real, self: Amount): (r: Amount)
    ensures Add(self, OfNumber(n)) == Success(r)
    ensures r.currency == self.currency && r.amount == n + self.amount
  {
    match Add(self, OfNumber(n))
    case Success(a) => a
    case Failure(_) => self
  }

  /** Addition of amounts is symmetric in when it fails, and agrees in value
      whichever operand is on the left. */
  lemma AddSymmetric(a: Amount, b: Amount)
    ensures Add(a, OfAmount(b)).Failure? <==> Add(b, OfAmount(a)).Failure?
    ensures Add(a, OfAmount(b)).Success? ==>
              Add(a, OfAmount(b)).value.amount == Add(b, OfAmount(a)).value.amount
  {
  }

  // ---------------------------------------------------------------------
  // Python's `sum` over amounts

  /** What `sum` holds while it runs: its start value 0, then the amount
      built so far. */
  datatype Running = Start | Acc(a: Amount)

  /** `sum(xs)`: `((0 + xs[0]) + xs[1]) + ...`. The first step is
      `xs[0].__radd__(0)`; each later one is `Amount.__add__`, and the first
      failing step's exception ends the sum. */
  function Sum(xs: seq<Amount>): (r: Result<Running, Error>)
    ensures xs == [] ==> r == Success(Start)
    ensures xs != [] && r.Success? ==> r.value.Acc? && r.value.a.currency == xs[0].currency
    decreases |xs|
  {
    if xs == [] then Success(Start)
    else
      var x := xs[|xs| - 1];
      assert xs[..|xs| - 1] != [] ==> xs[..|xs| - 1][0] == xs[0];
      match Sum(xs[..|xs| - 1])
      case Failure(e) => Failure(e)
      case Success(Start) => Success(Acc(RAdd(0.0, x)))
      case Success(Acc(acc)) =>
        match Add(acc, OfAmount(x))
        case Failure(e) => Failure(e)
        case Success(a) => Success(Acc(a))
  }

  /** The exact total of the values of `xs`. */
  function Total(xs: seq<Amount>): real
    decreases |xs|
  {
    if xs == [] then 0.0 else Total(xs[..|xs| - 1]) + xs[|xs| - 1].amount
  }

  /** Every amount of `xs` is in the currency with symbol `s`. */
  predicate AllIn(xs: seq<Amount>, s: string) {
    forall i :: 0 <= i < |xs| ==> xs[i].currency.symbol == s
  }

  /** Summing a non-empty list of one currency never raises: it yields the
      total, in the currency of the first amount. */
  lemma {:induction false} SumOneCurrency(xs: seq<Amount>)
    requires xs != [] && AllIn(xs, xs[0].currency.symbol)
    ensures Sum(xs) == Success(Acc(Amount(Total(xs), xs[0].currency)))
    decreases |xs|
  {
    var init := xs[..|xs| - 1];
    if init != [] {
      assert init[0] == xs[0];
      SumOneCurrency(init);
    }
  }

  /** Summing a list that mixes currencies raises a currency mismatch. */
  lemma {:induction false} SumMixedFails(xs: seq<Amount>)
    requires xs != [] && !AllIn(xs, xs[0].currency.symbol)
    ensures Sum(xs).Failure? && Sum(xs).error.CurrencyMismatch?
    decreases |xs|
  {
    var init := xs[..|xs| - 1];
    assert init != [] && init[0] == xs[0];
    if AllIn(init, xs[0].currency.symbol) {
      SumOneCurrency(init);
    } else {
      SumMixedFails(init);
    }
  }
}
