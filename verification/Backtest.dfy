/**
  The long-only backtest: one loop over the closes that buys all-in up to the order size, sells the
  whole position, charges slippage and commission, and values the book at every close. The strategy
  is an arbitrary function of the prices seen so far.
 */
module Backtest {
  import opened Domain
  import opened Arithmetic
  import opened Drawdown

  datatype Signal = BuySignal | SellSignal | HoldSignal

  datatype Request = Request(
    closes: seq<real>,
    initialCash: real,
    orderSize: nat,
    commissionPct: real,
    slippagePct: real)
  {
    /** The validated ranges of a request. */
    predicate Valid() {
      && |closes| >= 5 && (forall i :: 0 <= i < |closes| ==> closes[i] > 0.0)
      && initialCash > 0.0 && orderSize >= 1
      && 0.0 <= commissionPct <= 5.0 && 0.0 <= slippagePct <= 5.0
    }
  }

  /** The loop's variables. */
  datatype Book = Book(
    cash: real,
    quantity: nat,
    averagePrice: real,
    entryFee: real,
    closedPnls: seq<real>,
    feesPaid: real)

  function Amount(price: real, quantity: nat): real {
    price * quantity as real
  }

  function Fee(amount: real, rate: real): real {
    amount * rate
  }

  function Equity(b: Book, price: real): real {
    b.cash + Amount(price, b.quantity)
  }

  /** What one unit costs, commission included. */
  function UnitCost(price: real, rate: real): real {
    price * (1.0 + rate)
  }

  /** The largest quantity that the cash pays for. */
  function Affordable(cash: real, unitCost: real): int
    requires unitCost != 0.0
  {
    (cash / unitCost).Floor
  }

  function BuyPrice(r: Request, close: real): real {
    close * (1.0 + r.slippagePct / 100.0)
  }

  function SellPrice(r: Request, close: real): real {
    close * (1.0 - r.slippagePct / 100.0)
  }

  function Rate(r: Request): real {
    r.commissionPct / 100.0
  }

  lemma PricesPositive(r: Request, close: real)
    requires r.Valid() && close > 0.0
    ensures BuyPrice(r, close) > 0.0 && SellPrice(r, close) > 0.0
    ensures UnitCost(BuyPrice(r, close), Rate(r)) > 0.0
    ensures 0.0 <= Rate(r) <= 0.05
  {
    var up, down := 1.0 + r.slippagePct / 100.0, 1.0 - r.slippagePct / 100.0;
    PositiveProduct(close, up);
    PositiveProduct(close, down);
    assert BuyPrice(r, close) == close * up && SellPrice(r, close) == close * down;
    PositiveProduct(BuyPrice(r, close), 1.0 + Rate(r));
  }

  function BuyQuantity(r: Request, b: Book, close: real): int
    requires r.Valid() && close > 0.0
  {
    PricesPositive(r, close);
    MinInt(r.orderSize, Affordable(b.cash, UnitCost(BuyPrice(r, close), Rate(r))))
  }

  function Buy(r: Request, b: Book, close: real): Book
    requires r.Valid() && close > 0.0 && BuyQuantity(r, b, close) > 0
  {
    var quantity := BuyQuantity(r, b, close);
    var cost := Amount(BuyPrice(r, close), quantity);
    var fee := Fee(cost, Rate(r));
    b.(cash := b.cash - (cost + fee), quantity := quantity, averagePrice := BuyPrice(r, close), entryFee := fee,
       feesPaid := b.feesPaid + fee)
  }

  function ClosedPnl(r: Request, b: Book, close: real): real {
    var proceeds := Amount(SellPrice(r, close), b.quantity);
    Amount(SellPrice(r, close) - b.averagePrice, b.quantity) - b.entryFee - Fee(proceeds, Rate(r))
  }

  function Sell(r: Request, b: Book, close: real): Book {
    var proceeds := Amount(SellPrice(r, close), b.quantity);
    var fee := Fee(proceeds, Rate(r));
    Book(b.cash + (proceeds - fee), 0, 0.0, 0.0, b.closedPnls + [ClosedPnl(r, b, close)], b.feesPaid + fee)
  }

  /** One bar. */
  function Bar(r: Request, b: Book, close: real, signal: Signal): Book
    requires r.Valid() && close > 0.0
  {
    if signal.BuySignal? && b.quantity == 0 then
      if BuyQuantity(r, b, close) > 0 then Buy(r, b, close) else b
    else if signal.SellSignal? && b.quantity > 0 then Sell(r, b, close)
    else b
  }

  function Opening(r: Request): Book {
    Book(r.initialCash, 0, 0.0, 0.0, [], 0.0)
  }

  /** The book after the first n bars. */
  function Replay(r: Request, strategy: seq<real> -> Signal, n: nat): Book
    requires r.Valid() && n <= |r.closes|
  {
    if n == 0 then Opening(r)
    else Bar(r, Replay(r, strategy, n - 1), r.closes[n - 1], strategy(r.closes[..n]))
  }

  function Total(values: seq<real>): real {
    if |values| == 0 then 0.0 else Total(values[..|values| - 1]) + values[|values| - 1]
  }

  lemma TotalAppend(values: seq<real>, v: real)
    ensures Total(values + [v]) == Total(values) + v
  {
    assert (values + [v])[..|values|] == values;
  }

  /**
    The run opens with the initial cash and nothing else, and takes the bars one by one with the
    prices seen so far.
   */
  lemma ReplayInWords(r: Request, strategy: seq<real> -> Signal, n: nat)
    requires r.Valid() && n < |r.closes|
    ensures Replay(r, strategy, 0) == Book(r.initialCash, 0, 0.0, 0.0, [], 0.0)
    ensures r.closes[n] > 0.0
            && Replay(r, strategy, n + 1) == Bar(r, Replay(r, strategy, n), r.closes[n], strategy(r.closes[..n + 1]))
  {
  }

  // ---------------------------------------------------------------- the accounting identity

  /** Cash is what was paid in, plus the closed profits, less what the open position cost and its entry fee. */
  ghost predicate Balanced(r: Request, b: Book) {
    && b.cash == r.initialCash + Total(b.closedPnls) - Amount(b.averagePrice, b.quantity) - b.entryFee
    && b.cash >= 0.0
    && (b.quantity == 0 ==> b.entryFee == 0.0)
  }

  lemma FloorFits(cash: real, unit: real, q: nat)
    requires unit > 0.0 && q <= (cash / unit).Floor
    ensures unit * q as real <= cash
  {
    var x := cash / unit;
    assert x * unit == cash;
    assert q as real <= x;
    assert (x - q as real) * unit >= 0.0;
    assert x * unit == unit * q as real + (x - q as real) * unit;
  }

  lemma CostWithFee(price: real, rate: real, q: nat)
    ensures Amount(price, q) + Fee(Amount(price, q), rate) == UnitCost(price, rate) * q as real
  {
    var n := q as real;
    assert price * n + price * n * rate == price * (1.0 + rate) * n;
  }

  lemma BuyBalanced(r: Request, b: Book, close: real)
    requires r.Valid() && close > 0.0 && Balanced(r, b) && b.quantity == 0 && BuyQuantity(r, b, close) > 0
    ensures Balanced(r, Buy(r, b, close))
  {
    PricesPositive(r, close);
    var quantity, price := BuyQuantity(r, b, close), BuyPrice(r, close);
    FloorFits(b.cash, UnitCost(price, Rate(r)), quantity);
    CostWithFee(price, Rate(r), quantity);
    NoAmount(b.averagePrice);
    hide Amount, Fee, BuyPrice, Rate, BuyQuantity, UnitCost;
  }

  lemma NoAmount(price: real)
    ensures Amount(price, 0) == 0.0
  {
  }

  lemma AmountSplits(p: real, a: real, q: nat)
    ensures Amount(p - a, q) == Amount(p, q) - Amount(a, q)
  {
    var n := q as real;
    assert (p - a) * n == p * n - a * n;
  }

  lemma FeeWithin(amount: real, rate: real)
    requires amount >= 0.0 && 0.0 <= rate <= 0.05
    ensures 0.0 <= Fee(amount, rate) <= amount
  {
    assert amount * rate >= 0.0;
    assert amount * (1.0 - rate) >= 0.0;
    assert amount == amount * rate + amount * (1.0 - rate);
  }

  lemma AmountNonNegative(price: real, q: nat)
    requires price >= 0.0
    ensures Amount(price, q) >= 0.0
  {
  }

  lemma SellBalanced(r: Request, b: Book, close: real)
    requires r.Valid() && close > 0.0 && Balanced(r, b)
    ensures Balanced(r, Sell(r, b, close))
  {
    PricesPositive(r, close);
    AmountSplits(SellPrice(r, close), b.averagePrice, b.quantity);
    AmountNonNegative(SellPrice(r, close), b.quantity);
    FeeWithin(Amount(SellPrice(r, close), b.quantity), Rate(r));
    TotalAppend(b.closedPnls, ClosedPnl(r, b, close));
    NoAmount(0.0);
    hide Amount, Fee, SellPrice, Rate, Total;
  }

  lemma BarBalanced(r: Request, b: Book, close: real, signal: Signal)
    requires r.Valid() && close > 0.0 && Balanced(r, b)
    ensures Balanced(r, Bar(r, b, close, signal))
  {
    if signal.BuySignal? && b.quantity == 0 && BuyQuantity(r, b, close) > 0 {
      BuyBalanced(r, b, close);
    } else if signal.SellSignal? && b.quantity > 0 {
      SellBalanced(r, b, close);
    }
    hide Buy, Sell, BuyQuantity, Balanced;
  }

  lemma {:induction false} ReplayBalanced(r: Request, strategy: seq<real> -> Signal, n: nat)
    requires r.Valid() && n <= |r.closes|
    ensures Balanced(r, Replay(r, strategy, n))
  {
    if n == 0 {
      NoAmount(0.0);
    } else {
      ReplayBalanced(r, strategy, n - 1);
      BarBalanced(r, Replay(r, strategy, n - 1), r.closes[n - 1], strategy(r.closes[..n]));
    }
  }

  /**
    Main result: for every strategy and every candle series, after every bar, cash is not negative
    and the equity is the initial cash plus the closed profits plus the open position's gain over
    its entry price less its entry fee.
   */
  lemma EquityIdentity(r: Request, strategy: seq<real> -> Signal, n: nat, price: real)
    requires r.Valid() && n <= |r.closes| && price >= 0.0
    ensures var b := Replay(r, strategy, n);
            && b.cash >= 0.0 && Equity(b, price) >= 0.0
            && Equity(b, price)
               == r.initialCash + Total(b.closedPnls) + Amount(price - b.averagePrice, b.quantity) - b.entryFee
  {
    var b := Replay(r, strategy, n);
    ReplayBalanced(r, strategy, n);
    AmountSplits(price, b.averagePrice, b.quantity);
    AmountNonNegative(price, b.quantity);
    hide Amount, Replay, Total;
  }

  // ---------------------------------------------------------------- one bar in numbers

  lemma FloorIsMaximal(cash: real, unit: real, q: int)
    requires unit > 0.0 && q == (cash / unit).Floor
    ensures unit * (q + 1) as real > cash
  {
    var x := cash / unit;
    assert x * unit == cash;
    var d := (q + 1) as real - x;
    assert d > 0.0;
    PositiveProduct(d, unit);
    assert unit * (q + 1) as real == x * unit + d * unit;
  }

  /** What q units cost at a close: the price moved up by the slippage, and the commission on top. */
  function CostOf(r: Request, close: real, q: int): real {
    close * (1.0 + r.slippagePct / 100.0) * (1.0 + r.commissionPct / 100.0) * q as real
  }

  /** What q units bring at a close: the price moved down by the slippage, and the commission taken off. */
  function ProceedsOf(r: Request, close: real, q: int): real {
    close * (1.0 - r.slippagePct / 100.0) * (1.0 - r.commissionPct / 100.0) * q as real
  }

  /**
    A purchase in numbers: the largest quantity up to the order size that the cash pays for, commission and
    slippage included, is bought, and exactly its cost leaves the cash.
   */
  lemma PurchaseInNumbers(r: Request, b: Book, close: real)
    requires r.Valid() && close > 0.0 && b.quantity == 0 && b.cash >= 0.0
    ensures var after := Bar(r, b, close, BuySignal);
            && after.quantity <= r.orderSize && CostOf(r, close, after.quantity) <= b.cash
            && (after.quantity < r.orderSize ==> CostOf(r, close, after.quantity + 1) > b.cash)
            && after.cash == b.cash - CostOf(r, close, after.quantity) && after.closedPnls == b.closedPnls
            && (after.quantity == 0 ==> after == b)
            && (after.quantity > 0 ==>
                  && after.averagePrice == close * (1.0 + r.slippagePct / 100.0)
                  && after.entryFee + Amount(after.averagePrice, after.quantity) == CostOf(r, close, after.quantity)
                  && after.feesPaid == b.feesPaid + after.entryFee)
  {
    PricesPositive(r, close);
    var price, unit := BuyPrice(r, close), UnitCost(BuyPrice(r, close), Rate(r));
    var most := Affordable(b.cash, unit);
    CostIs(r, close);
    FloorIsMaximal(b.cash, unit, most);
    AffordableNonNegative(b.cash, unit);
    var q := BuyQuantity(r, b, close);
    assert q >= 0;
    FloorFits(b.cash, unit, q);
    CostWithFee(price, Rate(r), q);
    assert CostOf(r, close, q) == unit * q as real && CostOf(r, close, q + 1) == unit * (q + 1) as real;
    assert unit * 0 as real == 0.0;
    hide CostOf, Amount, Fee, UnitCost, Affordable, Rate;
  }

  lemma AffordableNonNegative(cash: real, unit: real)
    requires cash >= 0.0 && unit > 0.0
    ensures Affordable(cash, unit) >= 0
  {
    QuotientSign(cash, unit);
  }

  lemma CostIs(r: Request, close: real)
    ensures forall q: int :: CostOf(r, close, q) == UnitCost(BuyPrice(r, close), Rate(r)) * q as real
  {
  }

  /**
    A sale in numbers: the whole position goes, exactly its proceeds after slippage and commission come in, and
    the closed profit is those proceeds less what the position had cost with its entry fee.
   */
  lemma SaleInNumbers(r: Request, b: Book, close: real)
    requires r.Valid() && close > 0.0 && b.quantity > 0
    ensures var after := Bar(r, b, close, SellSignal);
            && after.quantity == 0 && after.averagePrice == 0.0 && after.entryFee == 0.0
            && after.cash == b.cash + ProceedsOf(r, close, b.quantity)
            && after.closedPnls
               == b.closedPnls + [ProceedsOf(r, close, b.quantity) - Amount(b.averagePrice, b.quantity) - b.entryFee]
            && after.feesPaid
               == b.feesPaid + Amount(close * (1.0 - r.slippagePct / 100.0), b.quantity) * (r.commissionPct / 100.0)
  {
    AmountSplits(SellPrice(r, close), b.averagePrice, b.quantity);
    ProceedsSplit(r, close, b.quantity);
    assert SellPrice(r, close) == close * (1.0 - r.slippagePct / 100.0) && Rate(r) == r.commissionPct / 100.0;
    hide ProceedsOf, Amount, SellPrice, Rate;
  }

  lemma ProceedsSplit(r: Request, close: real, q: nat)
    ensures ProceedsOf(r, close, q) == Amount(SellPrice(r, close), q) - Fee(Amount(SellPrice(r, close), q), Rate(r))
  {
    var price, rate, n := SellPrice(r, close), Rate(r), q as real;
    assert price * (1.0 - rate) * n == price * n - price * n * rate;
  }

  /** Every other signal, and a signal that does not fit the position, leaves the book alone. */
  lemma OtherwiseNothing(r: Request, b: Book, close: real, signal: Signal)
    requires r.Valid() && close > 0.0
    requires signal.HoldSignal? || (signal.BuySignal? && b.quantity > 0) || (signal.SellSignal? && b.quantity == 0)
    ensures Bar(r, b, close, signal) == b
  {
  }

  // ---------------------------------------------------------------- the loop

  datatype Result = Result(finalEquity: real, maxDrawdown: real, closedPnls: seq<real>, feesPaid: real,
                           curve: seq<real>)

  /** The body of the loop: act on the signal, updating the variables of the book. */
  method OnBar(r: Request, b: Book, close: real, signal: Signal) returns (after: Book)
    requires r.Valid() && close > 0.0
    ensures after == Bar(r, b, close, signal)
  {
    PricesPositive(r, close);
    hide Amount, Fee, BuyPrice, SellPrice, Rate, UnitCost, Affordable;
    var cash, quantity, averagePrice, entryFee := b.cash, b.quantity, b.averagePrice, b.entryFee;
    var closedPnls, feesPaid := b.closedPnls, b.feesPaid;
    if signal.BuySignal? && quantity == 0 {
      var buyPrice := BuyPrice(r, close);
      var buyQuantity := MinInt(r.orderSize, Affordable(cash, UnitCost(buyPrice, Rate(r))));
      if buyQuantity > 0 {
        var cost := Amount(buyPrice, buyQuantity);
        entryFee := Fee(cost, Rate(r));
        feesPaid := feesPaid + entryFee;
        cash := cash - (cost + entryFee);
        quantity := buyQuantity;
        averagePrice := buyPrice;
      }
    } else if signal.SellSignal? && quantity > 0 {
      var sellPrice := SellPrice(r, close);
      var proceeds := Amount(sellPrice, quantity);
      var exitFee := Fee(proceeds, Rate(r));
      feesPaid := feesPaid + exitFee;
      var pnl := Amount(sellPrice - averagePrice, quantity) - entryFee - exitFee;
      cash := cash + (proceeds - exitFee);
      closedPnls := closedPnls + [pnl];
      quantity, averagePrice, entryFee := 0, 0.0, 0.0;
    }
    after := Book(cash, quantity, averagePrice, entryFee, closedPnls, feesPaid);
  }

  /** A value is the equity after a bar, and not negative. */
  ghost predicate OnCurve(r: Request, strategy: seq<real> -> Signal, i: nat, value: real)
    requires r.Valid() && i < |r.closes|
  {
    value == Equity(Replay(r, strategy, i + 1), r.closes[i]) >= 0.0
  }

  /** The equity after each of the first bars. */
  ghost predicate IsCurve(r: Request, strategy: seq<real> -> Signal, curve: seq<real>)
    requires r.Valid() && |curve| <= |r.closes|
  {
    forall i :: 0 <= i < |curve| ==> OnCurve(r, strategy, i, curve[i])
  }

  lemma CurveNext(r: Request, strategy: seq<real> -> Signal, curve: seq<real>, value: real)
    requires r.Valid() && |curve| < |r.closes| && IsCurve(r, strategy, curve)
    requires value == Equity(Replay(r, strategy, |curve| + 1), r.closes[|curve|])
    ensures IsCurve(r, strategy, curve + [value])
  {
    hide Replay, Equity, Bar, Amount;
    EquityNonNegative(r, strategy, |curve|);
    assert OnCurve(r, strategy, |curve|, value);
    hide OnCurve;
  }

  lemma CurveNonNegative(r: Request, strategy: seq<real> -> Signal, curve: seq<real>)
    requires r.Valid() && |curve| <= |r.closes| && IsCurve(r, strategy, curve)
    ensures forall i :: 0 <= i < |curve| ==> curve[i] >= 0.0
  {
    hide Replay, Equity;
    assert forall i :: 0 <= i < |curve| ==> OnCurve(r, strategy, i, curve[i]);
  }

  lemma EquityNonNegative(r: Request, strategy: seq<real> -> Signal, i: nat)
    requires r.Valid() && i < |r.closes|
    ensures Equity(Replay(r, strategy, i + 1), r.closes[i]) >= 0.0
  {
    EquityIdentity(r, strategy, i + 1, r.closes[i]);
  }

  method ReplayLoop(r: Request, strategy: seq<real> -> Signal) returns (book: Book, curve: seq<real>)
    requires r.Valid()
    ensures book == Replay(r, strategy, |r.closes|)
    ensures |curve| == |r.closes| && IsCurve(r, strategy, curve)
  {
    book := Book(r.initialCash, 0, 0.0, 0.0, [], 0.0);
    var prices: seq<real> := [];
    curve := [];
    for i := 0 to |r.closes|
      invariant book == Replay(r, strategy, i)
      invariant prices == r.closes[..i] && |curve| == i && IsCurve(r, strategy, curve)
    {
      hide Bar, IsCurve, Amount;
      var close := r.closes[i];
      prices := prices + [close];
      assert prices == r.closes[..i + 1];
      book := OnBar(r, book, close, strategy(prices));
      CurveNext(r, strategy, curve, book.cash + Amount(close, book.quantity));
      curve := curve + [book.cash + Amount(close, book.quantity)];
    }
  }

  method Run(r: Request, strategy: seq<real> -> Signal) returns (result: Result)
    requires r.Valid()
    ensures var b := Replay(r, strategy, |r.closes|);
            && result.closedPnls == b.closedPnls && result.feesPaid == b.feesPaid
            && result.finalEquity == Equity(b, r.closes[|r.closes| - 1])
            && result.finalEquity == r.initialCash + Total(b.closedPnls)
                                     + Amount(r.closes[|r.closes| - 1] - b.averagePrice, b.quantity) - b.entryFee
    ensures |result.curve| == |r.closes| && IsCurve(r, strategy, result.curve)
    ensures IsPairDrawdown(result.curve, result.maxDrawdown) && 0.0 <= result.maxDrawdown <= 100.0
  {
    hide IsPeakDrawdown, IsPairDrawdown, IsCurve, Replay, Amount, Total;
    var book, curve := ReplayLoop(r, strategy);
    var finalPrice := r.closes[|r.closes| - 1];
    EquityIdentity(r, strategy, |r.closes|, finalPrice);
    CurveNonNegative(r, strategy, curve);
    var maxDrawdown := MaxDrawdownPct(curve);
    OnePassIsPairwise(curve, maxDrawdown);
    result := Result(book.cash + Amount(finalPrice, book.quantity), maxDrawdown, book.closedPnls, book.feesPaid, curve);
  }
}
