/**
  What a placement, a quote and a cancellation come to in numbers: which side of the quote an order
  trades at, when a limit trades at all, how much, and what is left of it. Everything is stated over
  the fields of the order, the quote, the ledger and the account.
 */
module PaperOutcomes {
  import opened Domain
  import opened Store
  import opened Portfolio
  import opened PaperBroker

  // ---------------------------------------------------------------- what an execution comes to

  /** Buyers pay the offer and everybody else receives the bid; the last price stands in for either. */
  predicate TradesAt(side: Side, quote: Quote, price: real) {
    if side.Buy? then (quote.offer.Some? ==> price == quote.offer.value) && (quote.offer.None? ==> price == quote.last)
    else (quote.bid.Some? ==> price == quote.bid.value) && (quote.bid.None? ==> price == quote.last)
  }

  /** What a quantity is worth at a price. */
  function Worth(quantity: real, price: real): real {
    quantity * price
  }

  /** The symbol is quoted, and this is the price that the order's side trades at. */
  predicate QuotedAt(s: Paper, intent: OrderIntent, price: real) {
    intent.symbol in s.quotes && TradesAt(intent.side, s.quotes[intent.symbol], price)
  }

  /** A purchase must not cost more than the cash, a sale must not exceed the position. */
  predicate CanTrade(a: Account, symbol: Symbol, side: Side, quantity: real, price: real) {
    if side.Buy? then Worth(quantity, price) <= a.cash
    else if symbol in a.holdings then quantity <= a.holdings[symbol].quantity
    else quantity <= 0.0
  }

  function Units(a: Account, symbol: Symbol): real {
    if symbol in a.holdings then a.holdings[symbol].quantity else 0.0
  }

  /** Cash moved by what the trade is worth and the position by its quantity, and no other position moved. */
  ghost predicate AccountMoved(a: Account, b: Account, symbol: Symbol, side: Side, quantity: real, price: real) {
    && b.cash == a.cash + (if side.Buy? then -Worth(quantity, price) else Worth(quantity, price))
    && (forall sym :: Units(b, sym) == Units(a, sym)
                                       + if sym != symbol then 0.0 else if side.Buy? then quantity else -quantity)
  }

  /** One more ledger entry, and cash and position moved by exactly that trade. */
  ghost predicate TradedOnce(s: Paper, after: Paper, id: OrderId, symbol: Symbol, side: Side, quantity: real,
                             price: real)
  {
    && |after.fills| == |s.fills| + 1 && after.fills[..|s.fills|] == s.fills
    && var f := after.fills[|s.fills|];
    && f.orderId == Some(id) && f.symbol == symbol && f.side == side && f.quantity == quantity && f.price == price
    && AccountMoved(s.account, after.account, symbol, side, quantity, price)
  }

  /** No trade: ledger, cash, profit and positions are as before. */
  ghost predicate NotTraded(s: Paper, after: Paper) {
    && after.fills == s.fills && after.account.cash == s.account.cash
    && after.account.realizedPnl == s.account.realizedPnl
    && forall sym :: Units(after.account, sym) == Units(s.account, sym)
  }

  /** The table is the old one with this order at the end, or in place of its old version. */
  ghost predicate Stores(cfg: Config, s: Paper, after: Paper, o: OrderRecord) {
    && (cfg.maxOrders > 0 ==> o in after.orders)
    && forall x :: x in after.orders ==> x == o || (x in s.orders && x.id != o.id)
  }

  lemma CanTradeIff(a: Account, symbol: Symbol, side: Side, quantity: real, price: real)
    requires quantity > 0.0
    ensures CanTrade(a, symbol, side, quantity, price) <==> Affordable(a, symbol, side, quantity, price)
  {
  }

  /** An accepted fill moves cash by its notional and the position by its quantity. */
  lemma FillMoves(a: Account, symbol: Symbol, side: Side, quantity: real, price: real, sym: Symbol)
    requires Sound(a) && quantity > 0.0 && CanTrade(a, symbol, side, quantity, price)
    ensures var b := FillApplied(a, symbol, side, quantity, price);
            && b.cash == a.cash + (if side.Buy? then -Worth(quantity, price) else Worth(quantity, price))
            && Units(b, sym) == Units(a, sym) + if sym != symbol then 0.0 else if side.Buy? then quantity else -quantity
  {
    CanTradeIff(a, symbol, side, quantity, price);
    assert Notional(quantity, price) == Worth(quantity, price);
    hide Sound, Affordable, Profit, Holding.Cost, Notional, Worth;
  }

  /** A refused fill moves nothing. */
  lemma RefusalMovesNothing(a: Account, symbol: Symbol, side: Side, quantity: real, price: real, sym: Symbol)
    requires Sound(a) && quantity > 0.0 && !CanTrade(a, symbol, side, quantity, price)
    ensures var b := FillApplied(a, symbol, side, quantity, price);
            b.cash == a.cash && b.realizedPnl == a.realizedPnl && Units(b, sym) == Units(a, sym)
  {
    CanTradeIff(a, symbol, side, quantity, price);
    hide Sound, Affordable, Notional, Worth;
  }

  /** The session has dropped no fill and has room for another. */
  ghost predicate HasRoom(cfg: Config, s: Paper) {
    Inv(cfg, s) && !s.evicted && |s.fills| < cfg.maxFills
  }

  /** Filling an order that agrees with the ledger is one trade of exactly that quantity and price. */
  lemma FillTrades(cfg: Config, s: Paper, o: OrderRecord, quantity: real, price: real, now: int)
    requires HasRoom(cfg, s) && OrderOk(o) && InLedger(o, s.fills)
    requires 0.0 < quantity <= o.quantity - o.filledQuantity && price > 0.0
    requires CanTrade(s.account, o.symbol, o.side, quantity, price)
    ensures TradedOnce(s, Fill(cfg, s, o, quantity, price, now), o.id, o.symbol, o.side, quantity, price)
  {
    assert KeyedFills(s.fills, s.nextId) && Sound(s.account) && o.filledQuantity >= 0.0;
    hide Inv, Agree, OrderOk, InLedger, KeyedFills, FillApplied, CanTrade, Sound, RecordFill, Upsert, AccountMoved;
    hide FilledOrder;
    FillIsAppended(s.fills, o, quantity, price, now, s.nextId, cfg.maxFills);
    AccountTrades(s.account, o.symbol, o.side, quantity, price);
    var after := Fill(cfg, s, o, quantity, price, now);
    assert after.fills == s.fills + [PaperFill(o, quantity, price)];
  }

  lemma AccountTrades(a: Account, symbol: Symbol, side: Side, quantity: real, price: real)
    requires Sound(a) && quantity > 0.0 && CanTrade(a, symbol, side, quantity, price)
    ensures AccountMoved(a, FillApplied(a, symbol, side, quantity, price), symbol, side, quantity, price)
  {
    assert HoldingOf(a.holdings, symbol).quantity >= 0.0;
    hide Sound, CanTrade, FillApplied, Worth, Units;
    FillMoves(a, symbol, side, quantity, price, symbol);
    forall sym
      ensures Units(FillApplied(a, symbol, side, quantity, price), sym)
              == Units(a, sym) + if sym != symbol then 0.0 else if side.Buy? then quantity else -quantity
    {
      FillMoves(a, symbol, side, quantity, price, sym);
    }
  }

  /** The order after a trade: nothing but its fill, its average, its status and its time has moved. */
  ghost predicate FilledBy(o: OrderRecord, after: OrderRecord, quantity: real, price: real, now: int) {
    && after.filledQuantity == o.filledQuantity + quantity
    && after.averageFillPrice.Some?
    && after.averageFillPrice.value * after.filledQuantity
       == Worth(quantity, price)
          + (if o.averageFillPrice.Some? then o.averageFillPrice.value * o.filledQuantity else 0.0)
    && (after.status.Filled? <==> after.filledQuantity == o.quantity)
    && (after.status.PartiallyFilled? <==> after.filledQuantity < o.quantity)
    && after == o.(filledQuantity := after.filledQuantity, averageFillPrice := after.averageFillPrice,
                   status := after.status, updatedAt := now)
  }

  lemma FilledOrderBy(o: OrderRecord, quantity: real, price: real, now: int)
    requires OrderOk(o) && 0.0 < quantity <= o.quantity - o.filledQuantity && price > 0.0
    ensures FilledBy(o, FilledOrder(o, quantity, price, now), quantity, price, now)
  {
    FilledOrderValue(o, quantity, price, now);
    var after := FilledOrder(o, quantity, price, now);
    assert after.averageFillPrice.value * after.filledQuantity == ValueOf(after);
    assert Notional(quantity, price) == Worth(quantity, price);
    assert ValueOf(o) == if o.averageFillPrice.Some? then o.averageFillPrice.value * o.filledQuantity else 0.0;
    hide AverageAfter, Notional, ValueOf, Worth;
  }

  // ---------------------------------------------------------------- placements

  /** The record of a new order that has not traded yet. */
  ghost predicate IsNew(o: OrderRecord, id: OrderId, intent: OrderIntent, now: int) {
    && o.id == id && o.clientOrderId == intent.clientOrderId && o.symbol == intent.symbol && o.side == intent.side
    && o.quantity == intent.quantity && o.orderType == intent.orderType && o.price == intent.price
    && o.stopLoss == intent.stopLoss && o.takeProfit == intent.takeProfit && o.source == intent.source
    && o.filledQuantity == 0.0 && o.averageFillPrice.None? && o.status.Accepted? && o.createdAt == now
  }

  /** Executed at once and in full at the given price if the account allows it, refused otherwise. */
  ghost predicate ExecutedOrRefused(cfg: Config, s: Paper, after: Paper, intent: OrderIntent, price: real, now: int) {
    if CanTrade(s.account, intent.symbol, intent.side, intent.quantity, price)
    then
      && TradedOnce(s, after, s.nextId, intent.symbol, intent.side, intent.quantity, price)
      && exists o, filled ::
           && IsNew(o, s.nextId, intent, now) && FilledBy(o, filled, intent.quantity, price, now)
           && filled.status.Filled?
           && Stores(cfg, s, after, filled)
    else NotTraded(s, after) && after.orders == s.orders
  }

  lemma FillNewOutcome(cfg: Config, s: Paper, intent: OrderIntent, price: real, now: int)
    requires HasRoom(cfg, s) && intent.Valid() && price > 0.0
    ensures ExecutedOrRefused(cfg, s, FillNew(cfg, s, intent, price, now), intent, price, now)
  {
    var s', o := s.(nextId := s.nextId + 1), NewOrder(s.nextId, intent, now);
    CanTradeIff(s.account, intent.symbol, intent.side, intent.quantity, price);
    NewOrderFillable(s, intent, now);
    if CanTrade(s.account, intent.symbol, intent.side, intent.quantity, price) {
      SaveCounter(cfg, s, s');
      FillTrades(cfg, s', o, intent.quantity, price, now);
      FilledOrderBy(o, intent.quantity, price, now);
      UpsertMembers(s.orders, FilledOrder(o, intent.quantity, price, now), cfg.maxOrders);
      hide Inv, OrderOk, InLedger, FillApplied, RecordFill, Upsert, CanTrade, Affordable, Sound, FilledOrder, FilledBy;
      hide TradedOnce, DistinctIds;
      var filled := FilledOrder(o, intent.quantity, price, now);
      var after := FillNew(cfg, s, intent, price, now);
      SameTrade(s, s', after, s.nextId, intent.symbol, intent.side, intent.quantity, price);
      FullyFilled(o, filled, intent.quantity, price, now);
      assert IsNew(o, s.nextId, intent, now) && Stores(cfg, s, after, filled);
    } else {
      forall sym
        ensures Units(FillNew(cfg, s, intent, price, now).account, sym) == Units(s.account, sym)
      {
        RefusalMovesNothing(s.account, intent.symbol, intent.side, intent.quantity, price, sym);
      }
      RefusalMovesNothing(s.account, intent.symbol, intent.side, intent.quantity, price, intent.symbol);
      hide Inv, FillApplied, CanTrade, Affordable, Sound;
    }
  }

  lemma FullyFilled(o: OrderRecord, filled: OrderRecord, quantity: real, price: real, now: int)
    requires FilledBy(o, filled, quantity, price, now) && o.filledQuantity == 0.0 && o.quantity == quantity
    ensures filled.status.Filled?
  {
  }

  /** Handing out an id does not disturb the session. */
  lemma SaveCounter(cfg: Config, s: Paper, s': Paper)
    requires HasRoom(cfg, s) && s' == s.(nextId := s.nextId + 1)
    ensures HasRoom(cfg, s')
  {
    hide Sound, OrderOk, InLedger, SignedQuantity, RecordedQuantity;
  }

  lemma SameTrade(s: Paper, s': Paper, after: Paper, id: OrderId, symbol: Symbol, side: Side, quantity: real,
                  price: real)
    requires TradedOnce(s', after, id, symbol, side, quantity, price) && s'.fills == s.fills && s'.account == s.account
    ensures TradedOnce(s, after, id, symbol, side, quantity, price)
  {
  }

  /** The placement is not turned away for its client id. */
  predicate Admitted(s: Paper, intent: OrderIntent) {
    !(intent.clientOrderId.Some? && intent.clientOrderId.value != "" && intent.clientOrderId.value in s.clientOrderIds)
  }

  /**
    Main result: a market order trades its whole quantity at the offer (a purchase) or the bid (a sale),
    the last price standing in for either, if the account allows it; otherwise, and without a quote or
    under a claimed client id, nothing is traded or stored.
   */
  lemma MarketOrderOutcome(cfg: Config, s: Paper, intent: OrderIntent, now: int, price: real)
    requires HasRoom(cfg, s) && intent.Valid() && intent.orderType.Market?
    ensures Sound(s.account)
    ensures var after := Place(cfg, s, intent, now);
            && (!Admitted(s, intent) || intent.symbol !in s.quotes ==> after == s)
            && (Admitted(s, intent) && QuotedAt(s, intent, price) ==>
                  ExecutedOrRefused(cfg, s, after, intent, price, now))
  {
    if intent.symbol in s.quotes && TradesAt(intent.side, s.quotes[intent.symbol], price) {
      assert s.quotes[intent.symbol].Valid();
      assert price > 0.0 && price == ExecutablePrice(intent.side, s.quotes[intent.symbol]);
      FillNewOutcome(cfg, s, intent, price, now);
    }
    hide ExecutedOrRefused, FillNew, ExecutablePrice, TradesAt, Sound;
  }

  /** A limit order rests: it is stored as it came and nothing trades. */
  ghost predicate Rests(cfg: Config, s: Paper, after: Paper, intent: OrderIntent, now: int) {
    && NotTraded(s, after) && after.account == s.account
    && exists o :: IsNew(o, s.nextId, intent, now) && Stores(cfg, s, after, o)
  }

  lemma AcceptRests(cfg: Config, s: Paper, intent: OrderIntent, now: int)
    requires Inv(cfg, s)
    ensures Rests(cfg, s, Accept(cfg, s, intent, now), intent, now)
  {
    var o := NewOrder(s.nextId, intent, now);
    UpsertMembers(s.orders, o, cfg.maxOrders);
    hide Inv, Upsert, DistinctIds;
    assert IsNew(o, s.nextId, intent, now) && Stores(cfg, s, Accept(cfg, s, intent, now), o);
  }

  /** The price reaches the limit: a purchase at most at it, everything else at least. */
  predicate WithinLimit(side: Side, price: real, limit: real) {
    if side.Buy? then price <= limit else price >= limit
  }

  /**
    Main result: a limit order trades at once exactly when the offer (for a purchase) or the bid (for a
    sale) is within its limit, at that price with price improvement and at the limit without;
    otherwise it rests.
   */
  lemma LimitOrderOutcome(cfg: Config, s: Paper, intent: OrderIntent, now: int, price: real)
    requires HasRoom(cfg, s) && intent.Valid() && intent.orderType.Limit?
    ensures Sound(s.account)
    ensures var after, limit := Place(cfg, s, intent, now), intent.price.value;
            && (!Admitted(s, intent) ==> after == s)
            && (Admitted(s, intent) && intent.symbol !in s.quotes ==> Rests(cfg, s, after, intent, now))
            && (Admitted(s, intent) && QuotedAt(s, intent, price) ==>
                  if WithinLimit(intent.side, price, limit)
                  then ExecutedOrRefused(cfg, s, after, intent, if cfg.priceImprovement then price else limit, now)
                  else Rests(cfg, s, after, intent, now))
  {
    AcceptRests(cfg, s, intent, now);
    if intent.symbol in s.quotes && TradesAt(intent.side, s.quotes[intent.symbol], price) {
      var quote, limit := s.quotes[intent.symbol], intent.price.value;
      assert quote.Valid();
      assert price > 0.0 && price == ExecutablePrice(intent.side, quote);
      assert LimitMarketable(intent.side, limit, quote) <==> WithinLimit(intent.side, price, limit);
      if WithinLimit(intent.side, price, limit) {
        assert LimitFillPrice(cfg, intent.side, limit, quote) == if cfg.priceImprovement then price else limit;
        FillNewOutcome(cfg, s, intent, if cfg.priceImprovement then price else limit, now);
      }
    }
    hide ExecutedOrRefused, FillNew, Accept, Rests, ExecutablePrice, LimitMarketable, LimitFillPrice, TradesAt, Sound;
  }

  lemma AnonymousAdmitted(s: Paper, intent: OrderIntent)
    requires !Present(intent.clientOrderId)
    ensures Admitted(s, intent)
  {
  }

  /** Main result: with the bid no higher than the offer, buying and selling back at one quote costs the spread. */
  lemma RoundTripNeverGains(cfg: Config, s: Paper, buy: OrderIntent, sell: OrderIntent, now: int, bid: real,
                            offer: real)
    requires HasRoom(cfg, s) && |s.fills| + 1 < cfg.maxFills && buy.Valid() && sell.Valid()
    requires buy.side.Buy? && sell.side.Sell? && buy.orderType.Market? && sell.orderType.Market?
    requires buy.symbol == sell.symbol && buy.quantity == sell.quantity && buy.symbol in s.quotes
    requires Admitted(s, buy) && !Present(sell.clientOrderId)
    requires TradesAt(Buy, s.quotes[buy.symbol], offer) && TradesAt(Sell, s.quotes[buy.symbol], bid) && bid <= offer
    requires CanTrade(s.account, buy.symbol, Buy, buy.quantity, offer)
    ensures Sound(s.account) && Sound(Place(cfg, s, buy, now).account)
    ensures var after := Place(cfg, Place(cfg, s, buy, now), sell, now);
            && after.account.cash == s.account.cash - Worth(buy.quantity, offer) + Worth(buy.quantity, bid)
            && after.account.cash <= s.account.cash
            && Units(after.account, buy.symbol) == Units(s.account, buy.symbol)
  {
    assert buy.quantity > 0.0;
    hide *;
    HoldsUnits(cfg, s, buy.symbol);
    var one := Place(cfg, s, buy, now);
    MarketTrades(cfg, s, buy, now, offer);
    BoughtUnits(s, one, s.nextId, buy.symbol, buy.quantity, offer);
    RoomAfter(cfg, s, buy, now);
    AnonymousAdmitted(one, sell);
    MarketTrades(cfg, one, sell, now, bid);
    BackAgain(s, one, Place(cfg, one, sell, now), s.nextId, one.nextId, buy.symbol, buy.quantity, offer, bid);
  }

  lemma HoldsUnits(cfg: Config, s: Paper, symbol: Symbol)
    requires HasRoom(cfg, s)
    ensures Inv(cfg, s) && Sound(s.account) && Units(s.account, symbol) >= 0.0
  {
  }

  lemma MarketTrades(cfg: Config, s: Paper, intent: OrderIntent, now: int, price: real)
    requires HasRoom(cfg, s) && intent.Valid() && intent.orderType.Market? && intent.symbol in s.quotes
    requires Admitted(s, intent) && TradesAt(intent.side, s.quotes[intent.symbol], price)
    requires CanTrade(s.account, intent.symbol, intent.side, intent.quantity, price)
    ensures Inv(cfg, s) && Sound(s.account)
    ensures TradedOnce(s, Place(cfg, s, intent, now), s.nextId, intent.symbol, intent.side, intent.quantity, price)
  {
    hide Inv, Place, TradesAt, TradedOnce, Sound, CanTrade;
    MarketOrderOutcome(cfg, s, intent, now, price);
  }

  lemma RoomAfter(cfg: Config, s: Paper, intent: OrderIntent, now: int)
    requires HasRoom(cfg, s) && intent.Valid() && |s.fills| + 1 < cfg.maxFills
    ensures Sound(s.account)
    ensures var after := Place(cfg, s, intent, now);
            after.quotes == s.quotes && Inv(cfg, after) && (|after.fills| == |s.fills| + 1 ==> HasRoom(cfg, after))
  {
    PlaceKeepsInv(cfg, s, intent, now);
    BuyKeepsRoom(cfg, s, intent, now);
    hide Place;
  }

  lemma BoughtUnits(s: Paper, one: Paper, id: OrderId, symbol: Symbol, quantity: real, offer: real)
    requires TradedOnce(s, one, id, symbol, Buy, quantity, offer) && Units(s.account, symbol) >= 0.0 && quantity > 0.0
    ensures |one.fills| == |s.fills| + 1
    ensures forall price :: CanTrade(one.account, symbol, Sell, quantity, price)
  {
    assert Units(one.account, symbol) >= quantity;
  }

  lemma BackAgain(s: Paper, one: Paper, two: Paper, a: OrderId, b: OrderId, symbol: Symbol, quantity: real, offer: real,
                  bid: real)
    requires TradedOnce(s, one, a, symbol, Buy, quantity, offer) && TradedOnce(one, two, b, symbol, Sell, quantity, bid)
    requires quantity > 0.0 && bid <= offer
    ensures two.account.cash == s.account.cash - Worth(quantity, offer) + Worth(quantity, bid) <= s.account.cash
    ensures Units(two.account, symbol) == Units(s.account, symbol)
  {
    SpreadCosts(quantity, offer, bid);
    hide Worth;
  }

  lemma SpreadCosts(quantity: real, offer: real, bid: real)
    requires quantity > 0.0 && bid <= offer
    ensures Worth(quantity, bid) <= Worth(quantity, offer)
  {
    assert quantity * (offer - bid) >= 0.0;
    assert quantity * offer == quantity * bid + quantity * (offer - bid);
  }

  lemma BuyKeepsRoom(cfg: Config, s: Paper, buy: OrderIntent, now: int)
    requires HasRoom(cfg, s) && buy.Valid()
    ensures var after := Place(cfg, s, buy, now); !after.evicted && after.quotes == s.quotes
  {
    hide Inv, FillApplied, RecordFill, Upsert, FilledOrder, Affordable;
  }

  // ---------------------------------------------------------------- quotes against resting orders

  /** What is noted on an order that the account could not pay for. */
  const CANCELLED_UNPAID := "paper resting order cancelled before fill"

  /** A live limit order of the quote's symbol with something left. */
  predicate Rested(o: OrderRecord, quote: Quote) {
    && o.symbol == quote.symbol && o.orderType.Limit? && o.price.Some? && o.filledQuantity < o.quantity
    && (o.status.Accepted? || o.status.PartiallyFilled?)
  }

  /** What is left, but no more than the per-quote limit if there is one. */
  predicate TakesUpTo(cfg: Config, o: OrderRecord, quantity: real) {
    var left, cap := o.quantity - o.filledQuantity, cfg.maxFillQuantityPerQuote as real;
    quantity == if cfg.maxFillQuantityPerQuote > 0 && cap < left then cap else left
  }

  /**
    Main result: a quote trades a resting order exactly when its offer (for a purchase) or bid (for a sale)
    is within the limit, for what is left up to the per-quote limit, at that price with price
    improvement and at the limit without; if the account cannot pay, the order is cancelled as it is.
   */
  lemma QuoteOutcome(cfg: Config, s: Paper, o: OrderRecord, quote: Quote, now: int, price: real, quantity: real)
    requires HasRoom(cfg, s) && o in s.orders && quote.Valid() && TradesAt(o.side, quote, price)
    requires TakesUpTo(cfg, o, quantity)
    ensures Sound(s.account) && o.filledQuantity >= 0.0
    ensures var after := Touch(cfg, s, o, quote, now);
            if !Rested(o, quote) || !WithinLimit(o.side, price, o.price.value) then after == s
            else
              var paid := if cfg.priceImprovement then price else o.price.value;
              if CanTrade(s.account, o.symbol, o.side, quantity, paid)
              then && TradedOnce(s, after, o.id, o.symbol, o.side, quantity, paid)
                   && exists filled :: FilledBy(o, filled, quantity, paid, now) && Stores(cfg, s, after, filled)
              else && NotTraded(s, after)
                   && exists cancelled :: Stores(cfg, s, after, cancelled)
                        && cancelled == o.(status := Cancelled, message := Some(CANCELLED_UNPAID), updatedAt := now)
  {
    assert OrderOk(o) && InLedger(o, s.fills);
    assert price == ExecutablePrice(o.side, quote) && price > 0.0;
    if Rested(o, quote) && WithinLimit(o.side, price, o.price.value) {
      var paid := if cfg.priceImprovement then price else o.price.value;
      assert Reached(o, quote) && FillQuantity(cfg, o) == quantity;
      assert LimitFillPrice(cfg, o.side, o.price.value, quote) == paid > 0.0;
      FillQuantityFits(cfg, o);
      hide Reached, FillQuantity, LimitFillPrice, ExecutablePrice, TradesAt, TakesUpTo, Rested, WithinLimit;
      ReachedOutcome(cfg, s, o, quote, now, quantity, paid);
    } else {
      hide Sound, Inv;
    }
  }

  lemma ReachedOutcome(cfg: Config, s: Paper, o: OrderRecord, quote: Quote, now: int, quantity: real, paid: real)
    requires HasRoom(cfg, s) && o in s.orders && Reached(o, quote)
    requires quantity == FillQuantity(cfg, o) && paid == LimitFillPrice(cfg, o.side, o.price.value, quote) && paid > 0.0
    requires 0.0 < quantity <= o.quantity - o.filledQuantity
    ensures Sound(s.account) && o.filledQuantity >= 0.0
    ensures var after := Touch(cfg, s, o, quote, now);
            if CanTrade(s.account, o.symbol, o.side, quantity, paid)
            then && TradedOnce(s, after, o.id, o.symbol, o.side, quantity, paid)
                 && exists filled :: FilledBy(o, filled, quantity, paid, now) && Stores(cfg, s, after, filled)
            else && NotTraded(s, after)
                 && exists cancelled :: Stores(cfg, s, after, cancelled)
                      && cancelled == o.(status := Cancelled, message := Some(CANCELLED_UNPAID), updatedAt := now)
  {
    assert OrderOk(o) && InLedger(o, s.fills) && DistinctIds(s.orders);
    CanTradeIff(s.account, o.symbol, o.side, quantity, paid);
    var after := Touch(cfg, s, o, quote, now);
    if CanTrade(s.account, o.symbol, o.side, quantity, paid) {
      FillTrades(cfg, s, o, quantity, paid, now);
      FilledOrderBy(o, quantity, paid, now);
      var filled := FilledOrder(o, quantity, paid, now);
      UpsertMembers(s.orders, filled, cfg.maxOrders);
      hide Inv, OrderOk, InLedger, FillApplied, RecordFill, Upsert, CanTrade, Affordable, Sound, FilledOrder;
      hide FilledBy, TradedOnce, DistinctIds, Reached, FillQuantity, LimitFillPrice;
      assert FilledBy(o, filled, quantity, paid, now) && Stores(cfg, s, after, filled);
    } else {
      forall sym
        ensures Units(after.account, sym) == Units(s.account, sym)
      {
        RefusalMovesNothing(s.account, o.symbol, o.side, quantity, paid, sym);
      }
      RefusalMovesNothing(s.account, o.symbol, o.side, quantity, paid, o.symbol);
      var cancelled := CancelledOrder(o, CANCEL_MESSAGE, now);
      UpsertMembers(s.orders, cancelled, cfg.maxOrders);
      hide Inv, OrderOk, InLedger, FillApplied, Upsert, CanTrade, Affordable, Sound, DistinctIds, Reached, FillQuantity;
      hide LimitFillPrice;
      assert Stores(cfg, s, after, cancelled);
    }
  }

  // ---------------------------------------------------------------- cancellations and client ids

  /** A cancellation never trades; it ends an accepted, pending or partly filled order and leaves every other record. */
  lemma CancelOutcome(cfg: Config, s: Paper, o: OrderRecord, now: int)
    requires Inv(cfg, s) && o in s.orders
    ensures var after := Cancel(cfg, s, o.id, now);
            && after == s.(orders := after.orders)
            && if o.status.Accepted? || o.status.Pending? || o.status.PartiallyFilled?
               then o.(status := Cancelled, updatedAt := now) in after.orders && |after.orders| == |s.orders|
                    && forall x :: x in s.orders && x.id != o.id ==> x in after.orders
               else after.orders == s.orders
  {
    var i :| 0 <= i < |s.orders| && s.orders[i] == o;
    FindIsFirst(s.orders, ById(o.id), i);
    var ended := o.(status := Cancelled, updatedAt := now);
    UpsertAt(s.orders, i, ended, cfg.maxOrders);
    hide Sound, Backs, OrderOk, Upsert, Find;
    if o.status.Accepted? || o.status.Pending? || o.status.PartiallyFilled? {
      var after := s.orders[i := ended];
      assert Cancel(cfg, s, o.id, now).orders == after && after[i] == ended;
      forall x | x in s.orders && x.id != o.id
        ensures x in after
      {
        var j :| 0 <= j < |s.orders| && s.orders[j] == x;
        assert after[j] == x;
      }
    }
  }

  /** A restart keeps the table, the ledger and the quotes, and claims exactly the client ids of the retained orders. */
  lemma RestartInWords(s: Paper, c: string)
    ensures var after := Restarted(s);
            && after.orders == s.orders && after.fills == s.fills && after.quotes == s.quotes
            && after.nextId == s.nextId
            && (c in after.clientOrderIds <==> exists o :: o in s.orders && o.clientOrderId == Some(c))
  {
    if o :| o in s.orders && o.clientOrderId == Some(c) {
      var i :| 0 <= i < |s.orders| && s.orders[i] == o;
      assert s.orders[i].clientOrderId.value == c;
    }
    hide RestoredAccount;
  }

  /** A quote in words: it replaces the stored one of its symbol unless that one is newer, and touches nothing else. */
  lemma QuoteStoredIff(cfg: Config, s: Paper, quote: Quote)
    requires Inv(cfg, s) && quote.Valid()
    ensures var after := Step(cfg, s, QuoteOp(quote));
            && after == s.(quotes := after.quotes)
            && quote.symbol in after.quotes
            && (quote.symbol !in s.quotes || s.quotes[quote.symbol].timestamp <= quote.timestamp ==>
                  after.quotes == s.quotes[quote.symbol := quote])
            && (quote.symbol in s.quotes && s.quotes[quote.symbol].timestamp > quote.timestamp ==>
                  after.quotes == s.quotes)
  {
    hide Inv;
  }

  /** Without a restart a claimed client id stays claimed. */
  lemma StepKeepsClientIds(cfg: Config, s: Paper, op: Op)
    requires Inv(cfg, s) && op.Valid() && !op.RestartOp?
    ensures s.clientOrderIds <= Step(cfg, s, op).clientOrderIds
  {
    hide Inv, FillApplied, RecordFill, Upsert, FilledOrder, Affordable, ProcessBelow;
    if op.ProcessOp? {
      ProcessKeepsClientIds(cfg, s, op.quote, |s.orders|, op.now);
    }
  }

  lemma {:induction false} ProcessKeepsClientIds(cfg: Config, s: Paper, quote: Quote, n: nat, now: int)
    requires Inv(cfg, s) && quote.Valid() && n <= |s.orders|
    ensures s.clientOrderIds <= ProcessBelow(cfg, s, quote, n, now).clientOrderIds
    decreases n
  {
    hide Inv, ProcessBelow, FillApplied, RecordFill, Upsert, FilledOrder, Affordable, Reached, Sound;
    if n == 0 {
      ProcessNone(cfg, s, quote, now);
    } else {
      ProcessStep(cfg, s, quote, n - 1, now);
      ProcessKeepsClientIds(cfg, Touch(cfg, s, s.orders[n - 1], quote, now), quote, n - 1, now);
    }
  }

  lemma {:induction false} RunKeepsClientIds(cfg: Config, s: Paper, ops: seq<Op>)
    requires Inv(cfg, s) && ValidOps(ops) && forall i :: 0 <= i < |ops| ==> !ops[i].RestartOp?
    ensures s.clientOrderIds <= Run(cfg, s, ops).clientOrderIds
    decreases |ops|
  {
    hide Inv, Step;
    if |ops| > 0 {
      StepKeepsClientIds(cfg, s, ops[0]);
      RunKeepsClientIds(cfg, Step(cfg, s, ops[0]), ops[1..]);
    }
  }

  /** A placement that stores an order claims its client id. */
  lemma StoredClaims(cfg: Config, s: Paper, intent: OrderIntent, now: int)
    requires Inv(cfg, s) && intent.Valid() && Present(intent.clientOrderId)
    ensures Place(cfg, s, intent, now).orders != s.orders ==>
              intent.clientOrderId.value in Place(cfg, s, intent, now).clientOrderIds
  {
    hide Inv, FillApplied, RecordFill, Upsert, FilledOrder, Affordable, Sound;
  }

  /**
    Main result: once a placement under a client id has stored an order, every later placement under
    that id is turned away without any effect, whatever happens in between short of a restart.
   */
  lemma OneOrderPerClientId(cfg: Config, s: Paper, first: OrderIntent, now: int, ops: seq<Op>, again: OrderIntent,
                            later: int)
    requires Inv(cfg, s) && first.Valid() && again.Valid() && ValidOps(ops)
    requires forall i :: 0 <= i < |ops| ==> !ops[i].RestartOp?
    requires first.clientOrderId.Some? && first.clientOrderId.value != "" && again.clientOrderId == first.clientOrderId
    requires Sound(s.account) && Place(cfg, s, first, now).orders != s.orders
    ensures Inv(cfg, Place(cfg, s, first, now))
    ensures var done := Run(cfg, Place(cfg, s, first, now), ops);
            Sound(done.account) && Place(cfg, done, again, later) == done
  {
    PlaceKeepsInv(cfg, s, first, now);
    StoredClaims(cfg, s, first, now);
    RunKeepsClientIds(cfg, Place(cfg, s, first, now), ops);
    var done := Run(cfg, Place(cfg, s, first, now), ops);
    assert Inv(cfg, done) && Sound(done.account);
    hide Inv, Sound, FillNew, Accept, Run;
  }
}
