/**
  The paper account: cash, realized profit and one holding per symbol, changed by fills and
  valued by snapshots.
 */
module Portfolio {
  import opened Domain
  import opened Arithmetic

  datatype Holding = Holding(quantity: real, averagePrice: real) {
    function Cost(): real {
      quantity * averagePrice
    }
  }

  /** The account as a value. */
  datatype Account = Account(initialCash: real, cash: real, realizedPnl: real, holdings: map<Symbol, Holding>)

  const EMPTY_HOLDING := Holding(0.0, 0.0)

  function HoldingOf(holdings: map<Symbol, Holding>, symbol: Symbol): Holding {
    if symbol in holdings then holdings[symbol] else EMPTY_HOLDING
  }

  // ---------------------------------------------------------------- sums over a map

  ghost function AnyKey(m: map<Symbol, real>): (k: Symbol)
    requires m.Keys != {}
    ensures k in m
  {
    var k :| k in m.Keys;
    k
  }

  /** The sum of the values of a map. */
  ghost function Sum(m: map<Symbol, real>): real
    decreases m.Keys
  {
    if m.Keys == {} then 0.0 else m[AnyKey(m)] + Sum(m - {AnyKey(m)})
  }

  /** Any key may be taken out first. */
  lemma {:induction false} SumRemove(m: map<Symbol, real>, k: Symbol)
    requires k in m
    ensures Sum(m) == m[k] + Sum(m - {k})
    decreases m.Keys
  {
    var first := AnyKey(m);
    if first != k {
      SumRemove(m - {first}, k);
      SumRemove(m - {k}, first);
      assert m - {first} - {k} == m - {k} - {first};
    }
  }

  lemma SumUpdate(m: map<Symbol, real>, k: Symbol, value: real)
    ensures Sum(m[k := value]) == Sum(m) - (if k in m then m[k] else 0.0) + value
  {
    SumRemove(m[k := value], k);
    if k in m {
      SumRemove(m, k);
      assert m[k := value] - {k} == m - {k};
    } else {
      assert m[k := value] - {k} == m;
    }
  }

  // ---------------------------------------------------------------- fills

  ghost function Costs(holdings: map<Symbol, Holding>): map<Symbol, real> {
    map s | s in holdings :: holdings[s].Cost()
  }

  lemma CostUpdate(holdings: map<Symbol, Holding>, s: Symbol, h: Holding)
    ensures Sum(Costs(holdings[s := h])) == Sum(Costs(holdings)) - HoldingOf(holdings, s).Cost() + h.Cost()
  {
    hide Holding.Cost, Sum;
    EmptyCost(EMPTY_HOLDING);
    var before := Costs(holdings);
    assert Costs(holdings[s := h]) == before[s := h.Cost()];
    assert (if s in before then before[s] else 0.0) == HoldingOf(holdings, s).Cost();
    SumUpdate(before, s, h.Cost());
  }

  /** The fill that the account refuses: a purchase beyond its cash, or a sale beyond its position. */
  predicate Affordable(a: Account, symbol: Symbol, side: Side, quantity: real, price: real) {
    if side.Buy? then Notional(quantity, price) <= a.cash else quantity <= HoldingOf(a.holdings, symbol).quantity
  }

  /** A purchase averages its price into the holding. */
  function Bought(h: Holding, quantity: real, price: real): Holding
    requires quantity > 0.0 && h.quantity >= 0.0
  {
    Holding(h.quantity + quantity, (h.Cost() + Notional(quantity, price)) / (h.quantity + quantity))
  }

  /** A sale keeps the average price until nothing is left. */
  function Sold(h: Holding, quantity: real): Holding {
    if h.quantity - quantity == 0.0 then Holding(0.0, 0.0) else Holding(h.quantity - quantity, h.averagePrice)
  }

  function Profit(h: Holding, quantity: real, price: real): real {
    (price - h.averagePrice) * quantity
  }

  function Notional(quantity: real, price: real): real {
    quantity * price
  }

  /**
    The account after a fill; a refused one only leaves an empty holding behind. Every side but BUY
    reduces the position.
   */
  function FillApplied(a: Account, symbol: Symbol, side: Side, quantity: real, price: real): Account
    requires quantity > 0.0 && HoldingOf(a.holdings, symbol).quantity >= 0.0
  {
    var h := HoldingOf(a.holdings, symbol);
    if !Affordable(a, symbol, side, quantity, price) then
      a.(holdings := a.holdings[symbol := h])
    else if side.Buy? then
      a.(cash := a.cash - Notional(quantity, price),
         holdings := a.holdings[symbol := Bought(h, quantity, price)])
    else
      a.(cash := a.cash + Notional(quantity, price),
         realizedPnl := a.realizedPnl + Profit(h, quantity, price),
         holdings := a.holdings[symbol := Sold(h, quantity)])
  }

  /** Money is conserved: cash plus the cost of what is held is the initial cash plus what was realized. */
  ghost predicate Conserved(a: Account) {
    a.cash + Sum(Costs(a.holdings)) == a.initialCash + a.realizedPnl
  }

  ghost predicate NonNegative(a: Account) {
    && a.cash >= 0.0
    && forall s :: s in a.holdings ==> a.holdings[s].quantity >= 0.0 && a.holdings[s].averagePrice >= 0.0
  }

  ghost predicate Sound(a: Account) {
    Conserved(a) && NonNegative(a)
  }

  lemma NotionalNonNegative(quantity: real, price: real)
    requires quantity >= 0.0 && price >= 0.0
    ensures Notional(quantity, price) >= 0.0
  {
  }

  /** A purchase adds its notional to the holding's cost. */
  lemma BoughtCost(h: Holding, quantity: real, price: real)
    requires quantity > 0.0 && price > 0.0 && h.quantity >= 0.0 && h.averagePrice >= 0.0
    ensures Bought(h, quantity, price).quantity >= 0.0 && Bought(h, quantity, price).averagePrice >= 0.0
    ensures Bought(h, quantity, price).Cost() == h.Cost() + Notional(quantity, price)
  {
    NotionalNonNegative(h.quantity, h.averagePrice);
    NotionalNonNegative(quantity, price);
    QuotientTimes(h.Cost() + Notional(quantity, price), h.quantity + quantity);
    QuotientSign(h.Cost() + Notional(quantity, price), h.quantity + quantity);
  }

  /** The proceeds of a sale less the cost it removes are the profit it realizes. */
  lemma SoldCost(h: Holding, quantity: real, price: real)
    requires 0.0 < quantity <= h.quantity && h.averagePrice >= 0.0
    ensures Sold(h, quantity).quantity >= 0.0 && Sold(h, quantity).averagePrice >= 0.0
    ensures Notional(quantity, price) + Sold(h, quantity).Cost() - h.Cost() == Profit(h, quantity, price)
  {
    Distributes(h.quantity, quantity, h.averagePrice);
    Distributes(price, h.averagePrice, quantity);
    if h.quantity == quantity {
      assert Sold(h, quantity).Cost() == 0.0;
    }
  }

  /** Replacing one holding conserves money when cash and realized profit move by the difference in cost. */
  lemma ReplaceHolding(a: Account, symbol: Symbol, h: Holding, cash: real, realizedPnl: real)
    requires Sound(a) && cash >= 0.0 && h.quantity >= 0.0 && h.averagePrice >= 0.0
    requires cash - a.cash + h.Cost() - HoldingOf(a.holdings, symbol).Cost() == realizedPnl - a.realizedPnl
    ensures Sound(a.(cash := cash, realizedPnl := realizedPnl, holdings := a.holdings[symbol := h]))
  {
    hide Holding.Cost;
    CostUpdate(a.holdings, symbol, h);
  }

  lemma BuySound(a: Account, symbol: Symbol, quantity: real, price: real)
    requires Sound(a) && quantity > 0.0 && price > 0.0 && Affordable(a, symbol, Buy, quantity, price)
    ensures Sound(FillApplied(a, symbol, Buy, quantity, price))
  {
    hide Holding.Cost, Bought, Notional, Sum;
    var h := HoldingOf(a.holdings, symbol);
    BoughtCost(h, quantity, price);
    ReplaceHolding(a, symbol, Bought(h, quantity, price), a.cash - Notional(quantity, price), a.realizedPnl);
  }

  lemma SellSound(a: Account, symbol: Symbol, side: Side, quantity: real, price: real)
    requires Sound(a) && quantity > 0.0 && price > 0.0 && !side.Buy? && Affordable(a, symbol, side, quantity, price)
    ensures Sound(FillApplied(a, symbol, side, quantity, price))
  {
    hide Holding.Cost, Sold, Notional, Profit, Sum;
    var h := HoldingOf(a.holdings, symbol);
    SoldCost(h, quantity, price);
    NotionalNonNegative(quantity, price);
    ReplaceHolding(a, symbol, Sold(h, quantity), a.cash + Notional(quantity, price),
                   a.realizedPnl + Profit(h, quantity, price));
  }

  /** One fill, accepted or refused, keeps the account sound. */
  lemma ApplyFillSound(a: Account, symbol: Symbol, side: Side, quantity: real, price: real)
    requires Sound(a) && quantity > 0.0 && price > 0.0
    ensures Sound(FillApplied(a, symbol, side, quantity, price))
  {
    hide Sum, Bought, Sold, Profit, Holding.Cost, Notional;
    if !Affordable(a, symbol, side, quantity, price) {
      ReplaceHolding(a, symbol, HoldingOf(a.holdings, symbol), a.cash, a.realizedPnl);
    } else if side.Buy? {
      BuySound(a, symbol, quantity, price);
    } else {
      SellSound(a, symbol, side, quantity, price);
    }
  }

  /**
    An accepted purchase in numbers: the holding grows by the quantity, its average price spreads the old
    cost and the new notional over it, and no profit is realized.
   */
  lemma PurchaseInNumbers(a: Account, symbol: Symbol, quantity: real, price: real)
    requires Sound(a) && quantity > 0.0 && price > 0.0 && quantity * price <= a.cash
    ensures var b := FillApplied(a, symbol, Buy, quantity, price);
            var units := if symbol in a.holdings then a.holdings[symbol].quantity else 0.0;
            var paid := if symbol in a.holdings then a.holdings[symbol].averagePrice else 0.0;
            && symbol in b.holdings && b.holdings[symbol].quantity == units + quantity
            && b.holdings[symbol].averagePrice * (units + quantity) == units * paid + quantity * price
            && b.realizedPnl == a.realizedPnl && b.cash == a.cash - quantity * price
            && b.holdings - {symbol} == a.holdings - {symbol}
  {
    var h := HoldingOf(a.holdings, symbol);
    assert Notional(quantity, price) == quantity * price && h.Cost() == h.quantity * h.averagePrice;
    QuotientTimes(h.Cost() + Notional(quantity, price), h.quantity + quantity);
    hide Sound, Notional, Holding.Cost;
  }

  /**
    An accepted sale in numbers: the holding shrinks by the quantity and keeps its average price until
    nothing is left, and the profit is the price over that average, times the quantity.
   */
  lemma SaleInNumbers(a: Account, symbol: Symbol, side: Side, quantity: real, price: real)
    requires Sound(a) && quantity > 0.0 && !side.Buy? && symbol in a.holdings && quantity <= a.holdings[symbol].quantity
    ensures var b, h := FillApplied(a, symbol, side, quantity, price), a.holdings[symbol];
            && symbol in b.holdings && b.holdings[symbol].quantity == h.quantity - quantity
            && b.holdings[symbol].averagePrice == (if quantity < h.quantity then h.averagePrice else 0.0)
            && b.realizedPnl == a.realizedPnl + quantity * price - quantity * h.averagePrice
            && b.cash == a.cash + quantity * price
            && b.holdings - {symbol} == a.holdings - {symbol}
  {
    var h := a.holdings[symbol];
    Distributes(price, h.averagePrice, quantity);
    assert Notional(quantity, price) == quantity * price;
    assert Profit(h, quantity, price) == quantity * price - quantity * h.averagePrice;
    hide Sound, Notional, Holding.Cost, Profit;
  }

  /** A refused fill leaves cash, profit and every holding as they were. */
  lemma RefusalInNumbers(a: Account, symbol: Symbol, side: Side, quantity: real, price: real)
    requires Sound(a) && quantity > 0.0
    requires if side.Buy? then quantity * price > a.cash
             else symbol !in a.holdings || quantity > a.holdings[symbol].quantity
    ensures var b := FillApplied(a, symbol, side, quantity, price);
            && b.cash == a.cash && b.realizedPnl == a.realizedPnl && b.initialCash == a.initialCash
            && forall s :: s in a.holdings ==> s in b.holdings && b.holdings[s] == a.holdings[s]
  {
    assert Notional(quantity, price) == quantity * price;
    hide Sound, Notional;
  }

  datatype FillOp = FillOp(symbol: Symbol, side: Side, quantity: real, price: real) {
    predicate Valid() {
      quantity > 0.0 && price > 0.0
    }
  }

  predicate AllValid(ops: seq<FillOp>) {
    forall i :: 0 <= i < |ops| ==> ops[i].Valid()
  }

  ghost function ApplyAll(a: Account, ops: seq<FillOp>): (r: Account)
    requires Sound(a) && AllValid(ops)
    ensures Sound(r) && r.initialCash == a.initialCash
    decreases |ops|
  {
    if |ops| == 0 then a
    else
      var op := ops[0];
      ApplyFillSound(a, op.symbol, op.side, op.quantity, op.price);
      ApplyAll(FillApplied(a, op.symbol, op.side, op.quantity, op.price), ops[1..])
  }

  /** A fresh account is sound. */
  lemma OpeningSound(initialCash: real)
    requires initialCash >= 0.0
    ensures Sound(Account(initialCash, initialCash, 0.0, map[]))
  {
    assert Costs(map[]) == map[];
  }

  /** Main result: money is conserved and nothing goes negative on every sequence of fills, accepted or refused. */
  lemma ConservationOnEveryRun(initialCash: real, ops: seq<FillOp>)
    requires initialCash >= 0.0 && AllValid(ops)
    ensures Sound(Account(initialCash, initialCash, 0.0, map[]))
    ensures var a := ApplyAll(Account(initialCash, initialCash, 0.0, map[]), ops);
            && a.cash + Sum(Costs(a.holdings)) == initialCash + a.realizedPnl
            && a.cash >= 0.0
            && forall s :: s in a.holdings ==> a.holdings[s].quantity >= 0.0
  {
    OpeningSound(initialCash);
  }

  // ---------------------------------------------------------------- persistence

  /** A number of the stored document as it is read back: a missing or unreadable one gives way to a default. */
  datatype Field = Number(value: real) | Unusable

  function NumberOr(field: Field, default: real): real {
    if field.Number? then field.value else default
  }

  /** The stored payload of the account, as a key-value document. */
  datatype Payload = Payload(initialCash: Field, cash: Field, realizedPnl: Field, dayStartEquity: Field,
                             peakEquity: Field, holdings: map<Symbol, Holding>)

  /** The account that a payload describes, with the defaults for unusable numbers. */
  function StoredAccount(p: Payload, initialCash: real): Account {
    var initial := NumberOr(p.initialCash, initialCash);
    Account(initial, NumberOr(p.cash, initial), NumberOr(p.realizedPnl, 0.0), p.holdings)
  }

  function RestoredAccount(stored: Account): Account {
    stored.(holdings := RestoredHoldings(stored.holdings))
  }

  function AtLeastZero(x: real): real {
    MaxReal(x, 0.0)
  }

  function RestoredHoldings(stored: map<Symbol, Holding>): map<Symbol, Holding> {
    map s | s in stored :: Holding(AtLeastZero(stored[s].quantity), AtLeastZero(stored[s].averagePrice))
  }

  /** A restored holding is the stored one with negative numbers replaced by zero. */
  lemma RestoredInNumbers(stored: map<Symbol, Holding>, s: Symbol)
    requires s in stored
    ensures s in RestoredHoldings(stored)
    ensures var r, h := RestoredHoldings(stored)[s], stored[s];
            && (if h.quantity < 0.0 then r.quantity == 0.0 else r.quantity == h.quantity)
            && (if h.averagePrice < 0.0 then r.averagePrice == 0.0 else r.averagePrice == h.averagePrice)
  {
  }

  // ---------------------------------------------------------------- the account object

  datatype Position = Position(symbol: Symbol, quantity: real, averagePrice: real, marketPrice: real)

  datatype PortfolioSnapshot = PortfolioSnapshot(
    cash: real, marketValue: real, equity: real, realizedPnl: real, unrealizedPnl: real, dailyPnl: real,
    positions: seq<Position>)

  function MarketPrice(quotes: map<Symbol, Quote>, symbol: Symbol, h: Holding): real {
    if symbol in quotes then quotes[symbol].last else h.averagePrice
  }

  function MarketValue(quotes: map<Symbol, Quote>, symbol: Symbol, h: Holding): real {
    MarketPrice(quotes, symbol, h) * h.quantity
  }

  lemma MarketPriceIs(quotes: map<Symbol, Quote>, symbol: Symbol, h: Holding)
    ensures MarketPrice(quotes, symbol, h) == if symbol in quotes then quotes[symbol].last else h.averagePrice
  {
  }

  /** A held symbol is valued at the last price of its quote; without a quote, at what was paid on average. */
  lemma ValuedAtLast(quotes: map<Symbol, Quote>, holdings: map<Symbol, Holding>, s: Symbol)
    requires s in holdings
    ensures MarketValues(quotes, holdings)[s]
            == (if s in quotes then quotes[s].last else holdings[s].averagePrice) * holdings[s].quantity
  {
  }

  /** The symbols with something in them. */
  function Held(holdings: map<Symbol, Holding>): map<Symbol, Holding> {
    map s | s in holdings && holdings[s].quantity > 0.0 :: holdings[s]
  }

  ghost function MarketValues(quotes: map<Symbol, Quote>, holdings: map<Symbol, Holding>): map<Symbol, real> {
    map s | s in holdings :: MarketValue(quotes, s, holdings[s])
  }

  /** The positions of a list by symbol; a later entry would replace an earlier one. */
  function BySymbol(positions: seq<Position>): map<Symbol, Holding> {
    if |positions| == 0 then map[]
    else
      var last := positions[|positions| - 1];
      BySymbol(positions[..|positions| - 1])[last.symbol := Holding(last.quantity, last.averagePrice)]
  }

  lemma BySymbolAppend(positions: seq<Position>, p: Position)
    ensures BySymbol(positions + [p]) == BySymbol(positions)[p.symbol := Holding(p.quantity, p.averagePrice)]
  {
    assert (positions + [p])[..|positions|] == positions;
  }

  lemma HeldUpdate(holdings: map<Symbol, Holding>, s: Symbol, h: Holding)
    requires s !in holdings
    ensures s !in Held(holdings)
    ensures Held(holdings[s := h]) == if h.quantity > 0.0 then Held(holdings)[s := h] else Held(holdings)
    ensures |Held(holdings[s := h])| == |Held(holdings)| + if h.quantity > 0.0 then 1 else 0
  {
    if h.quantity > 0.0 {
      assert Held(holdings[s := h]).Keys == Held(holdings).Keys + {s};
    }
  }

  lemma MarketValuesUpdate(quotes: map<Symbol, Quote>, holdings: map<Symbol, Holding>, s: Symbol, h: Holding)
    requires s !in holdings
    ensures Sum(MarketValues(quotes, holdings[s := h]))
            == Sum(MarketValues(quotes, holdings)) + MarketValue(quotes, s, h)
  {
    hide MarketValue;
    assert MarketValues(quotes, holdings[s := h]) == MarketValues(quotes, holdings)[s := MarketValue(quotes, s, h)];
    SumUpdate(MarketValues(quotes, holdings), s, MarketValue(quotes, s, h));
  }

  /** What one more holding adds to the totals. */
  lemma SeenStep(quotes: map<Symbol, Quote>, seen: map<Symbol, Holding>, s: Symbol, h: Holding)
    requires s !in seen && h.quantity >= 0.0
    ensures Sum(Costs(seen[s := h])) == Sum(Costs(seen)) + if h.quantity > 0.0 then h.Cost() else 0.0
    ensures Sum(MarketValues(quotes, Held(seen[s := h]))) ==
            Sum(MarketValues(quotes, Held(seen))) + if h.quantity > 0.0 then MarketValue(quotes, s, h) else 0.0
    ensures Held(seen[s := h]) == if h.quantity > 0.0 then Held(seen)[s := h] else Held(seen)
    ensures |Held(seen[s := h])| == |Held(seen)| + if h.quantity > 0.0 then 1 else 0
  {
    hide Holding.Cost, MarketValue, Sum, Costs, MarketValues, Held;
    HeldUpdate(seen, s, h);
    CostAdd(seen, s, h);
    if h.quantity > 0.0 {
      MarketValuesUpdate(quotes, Held(seen), s, h);
    } else {
      EmptyCost(h);
    }
  }

  lemma EmptyCost(h: Holding)
    requires h.quantity == 0.0
    ensures h.Cost() == 0.0
  {
  }

  lemma CostAdd(holdings: map<Symbol, Holding>, s: Symbol, h: Holding)
    requires s !in holdings
    ensures Sum(Costs(holdings[s := h])) == Sum(Costs(holdings)) + h.Cost()
  {
    hide Holding.Cost;
    assert Costs(holdings[s := h]) == Costs(holdings)[s := h.Cost()];
    SumUpdate(Costs(holdings), s, h.Cost());
  }

  lemma EmptyTotals(quotes: map<Symbol, Quote>)
    ensures Held(map[]) == map[] == BySymbol([])
    ensures Sum(Costs(map[])) == 0.0 == Sum(MarketValues(quotes, Held(map[])))
  {
    assert Costs(map[]) == map[] && Held(map[]) == map[] && MarketValues(quotes, map[]) == map[];
  }

  lemma UpdateTwice(m: map<Symbol, Holding>, s: Symbol, h: Holding, h': Holding)
    ensures m[s := h][s := h'] == m[s := h']
  {
  }

  /**
    A restart restores the account that was saved exactly when no stored quantity or average price
    is negative, which every sound account guarantees.
   */
  lemma RestoreIsExactIff(holdings: map<Symbol, Holding>)
    ensures RestoredHoldings(holdings) == holdings <==>
            forall s :: s in holdings ==> holdings[s].quantity >= 0.0 && holdings[s].averagePrice >= 0.0
  {
    if RestoredHoldings(holdings) == holdings {
      forall s | s in holdings
        ensures holdings[s].quantity >= 0.0 && holdings[s].averagePrice >= 0.0
      {
        assert RestoredHoldings(holdings)[s] == holdings[s];
      }
    }
  }

  /** An account read back: stored numbers as they are; otherwise the given cash, the initial cash and no profit. */
  lemma StoredInNumbers(p: Payload, initialCash: real)
    ensures var a := StoredAccount(p, initialCash);
            && a.holdings == p.holdings
            && a.initialCash == (match p.initialCash { case Number(x) => x case Unusable => initialCash })
            && a.cash == (match p.cash { case Number(x) => x case Unusable => a.initialCash })
            && a.realizedPnl == (match p.realizedPnl { case Number(x) => x case Unusable => 0.0 })
  {
  }

  /** A sound account survives a restart unchanged. */
  lemma RestoredIsSame(a: Account)
    requires NonNegative(a)
    ensures RestoredAccount(a) == a
  {
    RestoreIsExactIff(a.holdings);
  }

  class PaperPortfolio {
    var initialCash: real
    var cash: real
    var realizedPnl: real
    var holdings: map<Symbol, Holding>
    var dayStartEquity: real
    var peakEquity: real
    var saved: Option<Payload>

    ghost function View(): Account
      reads this
    {
      Account(initialCash, cash, realizedPnl, holdings)
    }

    ghost predicate Valid()
      reads this
    {
      Sound(View())
    }

    /** What the store holds is the account as it stands. */
    ghost predicate Saved()
      reads this
    {
      saved == Some(Payload(Number(initialCash), Number(cash), Number(realizedPnl), Number(dayStartEquity),
                            Number(peakEquity), holdings))
    }

    /** Open the account: restore the stored payload if there is one, otherwise start from the initial cash. */
    constructor (initialCash: real, stored: Option<Payload>)
      ensures stored.None? ==> View() == Account(initialCash, initialCash, 0.0, map[]) && Saved()
      ensures stored.None? ==> dayStartEquity == peakEquity == initialCash
      ensures stored.Some? ==>
                && View() == RestoredAccount(StoredAccount(stored.value, initialCash))
                && dayStartEquity == NumberOr(stored.value.dayStartEquity, this.initialCash)
                && peakEquity == NumberOr(stored.value.peakEquity, this.initialCash)
                && saved == stored
    {
      this.initialCash, cash, realizedPnl, holdings := initialCash, initialCash, 0.0, map[];
      dayStartEquity, peakEquity := initialCash, initialCash;
      saved := stored;
      new;
      if stored.None? {
        Persist();
      } else {
        this.initialCash := NumberOr(stored.value.initialCash, this.initialCash);
        cash := NumberOr(stored.value.cash, this.initialCash);
        realizedPnl := NumberOr(stored.value.realizedPnl, 0.0);
        dayStartEquity := NumberOr(stored.value.dayStartEquity, this.initialCash);
        peakEquity := NumberOr(stored.value.peakEquity, this.initialCash);
        holdings := RestoredHoldings(stored.value.holdings);
      }
    }

    method Persist()
      modifies this`saved
      ensures Saved()
    {
      saved := Some(Payload(Number(initialCash), Number(cash), Number(realizedPnl), Number(dayStartEquity),
                            Number(peakEquity), holdings));
    }

    method ApplyFill(symbol: Symbol, side: Side, quantity: real, price: real) returns (ok: bool)
      requires Valid() && quantity > 0.0 && price > 0.0
      modifies this
      ensures Valid()
      ensures View() == FillApplied(old(View()), symbol, side, quantity, price)
      ensures ok <==> Affordable(old(View()), symbol, side, quantity, price)
      ensures if ok then Saved() else saved == old(saved)
      ensures dayStartEquity == old(dayStartEquity) && peakEquity == old(peakEquity)
    {
      ghost var was := holdings;
      ApplyFillSound(View(), symbol, side, quantity, price);
      assert HoldingOf(holdings, symbol).quantity >= 0.0;
      hide Sound, Bought, Sold, Notional, Profit;
      if symbol !in holdings {
        holdings := holdings[symbol := Holding(0.0, 0.0)];
      }
      var h := holdings[symbol];
      assert h == HoldingOf(was, symbol) && holdings == was[symbol := h];
      if side.Buy? {
        var cost := Notional(quantity, price);
        if cost > cash {
          return false;
        }
        UpdateTwice(was, symbol, h, Bought(h, quantity, price));
        holdings := holdings[symbol := Bought(h, quantity, price)];
        cash := cash - cost;
        Persist();
        return true;
      }
      if quantity > h.quantity {
        return false;
      }
      var proceeds := Notional(quantity, price);
      var pnl := Profit(h, quantity, price);
      UpdateTwice(was, symbol, h, Sold(h, quantity));
      holdings := holdings[symbol := Sold(h, quantity)];
      cash := cash + proceeds;
      realizedPnl := realizedPnl + pnl;
      Persist();
      ok := true;
    }

    /** Value the account at the latest quotes; a new equity high is remembered. */
    method Snapshot(quotes: map<Symbol, Quote>) returns (snap: PortfolioSnapshot)
      requires Valid()
      modifies this`peakEquity, this`saved
      ensures Valid() && View() == old(View())
      ensures snap.equity == initialCash + realizedPnl + snap.unrealizedPnl
      ensures snap.equity == snap.cash + snap.marketValue && snap.cash == cash && snap.realizedPnl == realizedPnl
      ensures snap.marketValue == Sum(MarketValues(quotes, Held(holdings)))
      ensures snap.dailyPnl == snap.equity - dayStartEquity
      ensures BySymbol(snap.positions) == Held(holdings) && |snap.positions| == |Held(holdings)|
      ensures peakEquity == MaxReal(old(peakEquity), snap.equity)
      ensures if snap.equity > old(peakEquity) then Saved() else saved == old(saved)
    {
      assert Conserved(View());
      hide Sound, Sum, Costs, MarketValues, Held, BySymbol;
      var marketValue, unrealized, positions := PositionTotals(quotes, holdings);
      var equity := cash + marketValue;
      if equity > peakEquity {
        peakEquity := equity;
        Persist();
      }
      snap := PortfolioSnapshot(cash, marketValue, equity, realizedPnl, unrealized, equity - dayStartEquity, positions);
    }
  }

  /** The loop over the holdings: total value, total profit over cost, and the list of positions. */
  method PositionTotals(quotes: map<Symbol, Quote>, holdings: map<Symbol, Holding>)
      returns (marketValue: real, unrealized: real, positions: seq<Position>)
    requires forall s :: s in holdings ==> holdings[s].quantity >= 0.0
    ensures marketValue == Sum(MarketValues(quotes, Held(holdings)))
    ensures marketValue - unrealized == Sum(Costs(holdings))
    ensures BySymbol(positions) == Held(holdings) && |positions| == |Held(holdings)|
    ensures forall p :: p in positions ==>
              p.marketPrice == if p.symbol in quotes then quotes[p.symbol].last else p.averagePrice
  {
    marketValue, unrealized, positions := 0.0, 0.0, [];
    var todo := holdings.Keys;
    ghost var seen: map<Symbol, Holding> := map[];
    EmptyTotals(quotes);
    hide MarketPrice, MarketValue, MarketValues, Holding.Cost, Costs, Sum, Held, BySymbol;
    while todo != {}
      invariant todo <= holdings.Keys && seen.Keys == holdings.Keys - todo
      invariant forall s :: s in seen ==> seen[s] == holdings[s]
      invariant marketValue == Sum(MarketValues(quotes, Held(seen)))
      invariant marketValue - unrealized == Sum(Costs(seen))
      invariant BySymbol(positions) == Held(seen) && |positions| == |Held(seen)|
      invariant forall p :: p in positions ==>
                  p.marketPrice == if p.symbol in quotes then quotes[p.symbol].last else p.averagePrice
      decreases todo
    {
      var symbol :| symbol in todo;
      var h := holdings[symbol];
      SeenStep(quotes, seen, symbol, h);
      if h.quantity > 0.0 {
        var value, cost := MarketValue(quotes, symbol, h), h.Cost();
        var p := Position(symbol, h.quantity, h.averagePrice, MarketPrice(quotes, symbol, h));
        MarketPriceIs(quotes, symbol, h);
        BySymbolAppend(positions, p);
        marketValue := marketValue + value;
        unrealized := unrealized + (value - cost);
        positions := positions + [p];
      }
      seen := seen[symbol := h];
      todo := todo - {symbol};
    }
    assert seen == holdings;
  }

}
