/**
  The paper broker: orders, holdings, cash and the incremental fill ledger are kept separately by
  `place_order`, `process_quote` and `cancel_order`, and agree after every run of them.
 */
module PaperBroker {
  import opened Domain
  import opened Store
  import opened Portfolio

  datatype Config = Config(
    maxOrders: nat,
    maxFills: nat,
    matchRestingLimits: bool,
    maxFillQuantityPerQuote: nat,
    priceImprovement: bool)

  /** Everything a paper session keeps, and whether its bounded ledger has dropped a fill yet. */
  datatype Paper = Paper(
    orders: seq<OrderRecord>,
    fills: seq<FillRecord>,
    quotes: map<Symbol, Quote>,
    account: Account,
    saved: Account,
    clientOrderIds: set<string>,
    nextId: OrderId,
    evicted: bool)

  // ---------------------------------------------------------------- prices

  function ExecutablePrice(side: Side, quote: Quote): real {
    if side.Buy?
    then (if quote.offer.Some? then quote.offer.value else quote.last)
    else (if quote.bid.Some? then quote.bid.value else quote.last)
  }

  predicate LimitMarketable(side: Side, limit: real, quote: Quote) {
    if side.Buy? then ExecutablePrice(side, quote) <= limit else ExecutablePrice(side, quote) >= limit
  }

  function LimitFillPrice(cfg: Config, side: Side, limit: real, quote: Quote): real {
    if !cfg.priceImprovement then limit
    else if side.Buy? then MinReal(limit, ExecutablePrice(side, quote))
    else MaxReal(limit, ExecutablePrice(side, quote))
  }

  // ---------------------------------------------------------------- one fill

  function ValueOf(o: OrderRecord): real {
    (if o.averageFillPrice.Some? then o.averageFillPrice.value else 0.0) * o.filledQuantity
  }

  function AverageAfter(value: real, quantity: real, price: real, total: real): real
    requires total > 0.0
  {
    (value + Notional(quantity, price)) / total
  }

  /** The order after a fill of the given quantity and price. */
  function FilledOrder(o: OrderRecord, quantity: real, price: real, now: int): OrderRecord
    requires o.filledQuantity + quantity > 0.0
  {
    var total := o.filledQuantity + quantity;
    o.(averageFillPrice := Some(AverageAfter(ValueOf(o), quantity, price, total)),
       filledQuantity := total,
       status := if total >= o.quantity then Filled else PartiallyFilled,
       updatedAt := now)
  }

  function WithClientId(ids: set<string>, clientOrderId: Option<string>): set<string> {
    if Present(clientOrderId) then ids + {clientOrderId.value} else ids
  }

  /** A fill that the account accepts: the account moves first, then the order, then the ledger. */
  ghost function Fill(cfg: Config, s: Paper, o: OrderRecord, quantity: real, price: real, now: int): Paper
    requires Sound(s.account) && quantity > 0.0 && o.filledQuantity >= 0.0
  {
    var filled := FilledOrder(o, quantity, price, now);
    s.(orders := Upsert(s.orders, filled, cfg.maxOrders),
       fills := RecordFill(s.fills, filled, "paper", cfg.maxFills),
       account := FillApplied(s.account, o.symbol, o.side, quantity, price),
       saved := FillApplied(s.account, o.symbol, o.side, quantity, price),
       clientOrderIds := WithClientId(s.clientOrderIds, o.clientOrderId),
       evicted := s.evicted || |s.fills| >= cfg.maxFills)
  }

  function NewOrder(id: OrderId, intent: OrderIntent, now: int): OrderRecord {
    OrderRecord(id, None, intent.clientOrderId, intent.symbol, intent.side, intent.quantity, 0.0, intent.orderType,
                intent.price, None, intent.stopLoss, intent.takeProfit, Accepted, intent.source, None, None, now, now)
  }

  // ---------------------------------------------------------------- the three operations

  /** A new order that is filled at once, or refused by the account. */
  ghost function FillNew(cfg: Config, s: Paper, intent: OrderIntent, price: real, now: int): Paper
    requires Sound(s.account) && intent.quantity > 0.0
  {
    var s' := s.(nextId := s.nextId + 1);
    if Affordable(s.account, intent.symbol, intent.side, intent.quantity, price)
    then Fill(cfg, s', NewOrder(s.nextId, intent, now), intent.quantity, price, now)
    else s'.(account := FillApplied(s.account, intent.symbol, intent.side, intent.quantity, price))
  }

  ghost function Accept(cfg: Config, s: Paper, intent: OrderIntent, now: int): Paper {
    s.(orders := Upsert(s.orders, NewOrder(s.nextId, intent, now), cfg.maxOrders),
       clientOrderIds := WithClientId(s.clientOrderIds, intent.clientOrderId),
       nextId := s.nextId + 1)
  }

  ghost function Place(cfg: Config, s: Paper, intent: OrderIntent, now: int): Paper
    requires Sound(s.account) && intent.Valid()
  {
    if Present(intent.clientOrderId) && intent.clientOrderId.value in s.clientOrderIds then s
    else if intent.orderType.Market? then
      if intent.symbol !in s.quotes then s
      else FillNew(cfg, s, intent, ExecutablePrice(intent.side, s.quotes[intent.symbol]), now)
    else if intent.symbol in s.quotes && LimitMarketable(intent.side, intent.price.value, s.quotes[intent.symbol]) then
      FillNew(cfg, s, intent, LimitFillPrice(cfg, intent.side, intent.price.value, s.quotes[intent.symbol]), now)
    else Accept(cfg, s, intent, now)
  }

  /** A quote reaches this resting order. */
  predicate Reached(o: OrderRecord, quote: Quote) {
    && o.symbol == quote.symbol && o.orderType.Limit?
    && (o.status.Accepted? || o.status.PartiallyFilled?)
    && o.price.Some? && LimitMarketable(o.side, o.price.value, quote)
    && o.quantity - o.filledQuantity > 0.0
  }

  function FillQuantity(cfg: Config, o: OrderRecord): real {
    var remaining := o.quantity - o.filledQuantity;
    if cfg.maxFillQuantityPerQuote > 0 then MinReal(remaining, cfg.maxFillQuantityPerQuote as real) else remaining
  }

  function CancelledOrder(o: OrderRecord, message: Option<string>, now: int): OrderRecord {
    o.(status := Cancelled, message := message, updatedAt := now)
  }

  const CANCEL_MESSAGE := Some("paper resting order cancelled before fill")

  /** A quote against one resting order: fill it, or cancel it when the account refuses the fill. */
  ghost function Touch(cfg: Config, s: Paper, o: OrderRecord, quote: Quote, now: int): Paper
    requires Sound(s.account) && o.filledQuantity >= 0.0
  {
    if !Reached(o, quote) then s
    else
      var quantity, price := FillQuantity(cfg, o), LimitFillPrice(cfg, o.side, o.price.value, quote);
      if Affordable(s.account, o.symbol, o.side, quantity, price)
      then Fill(cfg, s, o, quantity, price, now)
      else s.(account := FillApplied(s.account, o.symbol, o.side, quantity, price),
              orders := Upsert(s.orders, CancelledOrder(o, CANCEL_MESSAGE, now), cfg.maxOrders))
  }

  predicate Open(o: OrderRecord) {
    o.status.Accepted? || o.status.Pending? || o.status.PartiallyFilled?
  }

  ghost function Cancel(cfg: Config, s: Paper, id: OrderId, now: int): Paper {
    var i := Find(s.orders, ById(id));
    if i < |s.orders| && Open(s.orders[i])
    then s.(orders := Upsert(s.orders, CancelledOrder(s.orders[i], s.orders[i].message, now), cfg.maxOrders))
    else s
  }

  // ---------------------------------------------------------------- what always holds

  ghost predicate OrderOk(o: OrderRecord) {
    && o.quantity > 0.0
    && 0.0 <= o.filledQuantity <= o.quantity
    && (o.price.Some? ==> o.price.value > 0.0)
    && o.brokerOrderId.None?
    && (if o.filledQuantity > 0.0 then o.averageFillPrice.Some? && o.averageFillPrice.value > 0.0
        else o.averageFillPrice.None?)
    && (o.status.Accepted? || o.status.PartiallyFilled? || o.status.Filled? || o.status.Cancelled?)
    && (o.status.Filled? <==> o.filledQuantity == o.quantity)
    && (o.status.PartiallyFilled? ==> o.filledQuantity > 0.0)
    && (o.status.Accepted? ==> o.filledQuantity == 0.0)
  }

  /** The saved account is sound and differs at most in empty holdings, which a refused fill leaves behind. */
  ghost predicate Backs(saved: Account, a: Account) {
    && Sound(saved)
    && saved.initialCash == a.initialCash && saved.cash == a.cash && saved.realizedPnl == a.realizedPnl
    && forall sym :: HoldingOf(saved.holdings, sym) == HoldingOf(a.holdings, sym)
  }

  /** Facts that hold whether or not the ledger has evicted anything. */
  ghost predicate WellFormed(s: Paper) {
    && Sound(s.account) && Backs(s.saved, s.account)
    && DistinctIds(s.orders)
    && (forall o :: o in s.orders ==> OrderOk(o) && o.id < s.nextId)
    && (forall sym :: sym in s.quotes ==> s.quotes[sym].Valid())
  }

  /** The signed quantity that the ledger holds for a symbol: purchases less everything else. */
  function SignedQuantity(fills: seq<FillRecord>, symbol: Symbol): real {
    if |fills| == 0 then 0.0
    else
      var last := fills[|fills| - 1];
      SignedQuantity(fills[..|fills| - 1], symbol)
      + if last.symbol != symbol then 0.0 else if last.side.Buy? then last.quantity else -last.quantity
  }

  lemma SignedAppend(fills: seq<FillRecord>, f: FillRecord, symbol: Symbol)
    ensures SignedQuantity(fills + [f], symbol) == SignedQuantity(fills, symbol)
            + if f.symbol != symbol then 0.0 else if f.side.Buy? then f.quantity else -f.quantity
  {
    assert (fills + [f])[..|fills|] == fills;
  }

  /** An order's filled quantity and value are the sums of its ledger fills. */
  ghost predicate InLedger(o: OrderRecord, fills: seq<FillRecord>) {
    && o.filledQuantity == RecordedQuantity(fills, o.id)
    && ValueOf(o) == RecordedValue(fills, o.id)
  }

  ghost predicate KeyedFill(f: FillRecord, fills: seq<FillRecord>, nextId: OrderId) {
    && f.quantity > 0.0 && f.price > 0.0
    && f.orderId.Some? && f.orderId.value < nextId
    && f.brokerFillId.Some?
    && f.brokerFillId.value.reference == LocalRef(f.orderId.value)
    && f.brokerFillId.value.cumulative <= RecordedQuantity(fills, f.orderId.value)
  }

  /** Orders, holdings and the ledger tell the same story. */
  ghost predicate Agree(s: Paper) {
    && (forall o :: o in s.orders ==> InLedger(o, s.fills))
    && (forall k :: 0 <= k < |s.fills| ==> KeyedFill(s.fills[k], s.fills, s.nextId))
    && (forall sym :: SignedQuantity(s.fills, sym) == HoldingOf(s.account.holdings, sym).quantity)
  }

  // ---------------------------------------------------------------- one fill keeps the agreement

  lemma AverageIsExact(value: real, quantity: real, price: real, total: real)
    requires value >= 0.0 && quantity > 0.0 && price > 0.0 && total > 0.0
    ensures AverageAfter(value, quantity, price, total) > 0.0
    ensures AverageAfter(value, quantity, price, total) * total == value + Notional(quantity, price)
  {
    var amount := value + Notional(quantity, price);
    assert Notional(quantity, price) > 0.0;
    hide Notional;
    assert amount / total > 0.0;
  }

  lemma ValueNonNegative(o: OrderRecord)
    requires OrderOk(o)
    ensures ValueOf(o) >= 0.0
  {
    if o.averageFillPrice.Some? {
      NotionalNonNegative(o.averageFillPrice.value, o.filledQuantity);
    }
  }

  /** A fill adds exactly its notional to the order's value. */
  lemma FilledOrderValue(o: OrderRecord, quantity: real, price: real, now: int)
    requires OrderOk(o) && quantity > 0.0 && price > 0.0
    ensures ValueOf(FilledOrder(o, quantity, price, now)) == ValueOf(o) + Notional(quantity, price)
    ensures FilledOrder(o, quantity, price, now).averageFillPrice.value > 0.0
  {
    ValueNonNegative(o);
    AverageIsExact(ValueOf(o), quantity, price, o.filledQuantity + quantity);
    hide AverageAfter, Notional;
  }

  lemma NotionalDividesBack(quantity: real, price: real)
    requires quantity > 0.0 && price > 0.0
    ensures Notional(quantity, price) > 0.0
    ensures Notional(quantity, price) / quantity == price
  {
  }

  function PaperFill(o: OrderRecord, quantity: real, price: real): FillRecord {
    FillRecord(Some(FillKey("paper", LocalRef(o.id), o.filledQuantity + quantity)), Some(o.id), None, o.symbol, o.side,
               quantity, price)
  }

  ghost predicate KeyedFills(fills: seq<FillRecord>, nextId: OrderId) {
    forall k :: 0 <= k < |fills| ==> KeyedFill(fills[k], fills, nextId)
  }

  /** The ledger increment of a paper fill is that fill: its own quantity at its own price. */
  lemma IncrementIsTheFill(fills: seq<FillRecord>, o: OrderRecord, quantity: real, price: real, now: int)
    requires OrderOk(o) && InLedger(o, fills) && quantity > 0.0 && price > 0.0
    ensures var filled := FilledOrder(o, quantity, price, now);
            Advances(fills, filled) && NextFill(fills, filled, "paper") == PaperFill(o, quantity, price)
  {
    var filled := FilledOrder(o, quantity, price, now);
    FilledOrderValue(o, quantity, price, now);
    NotionalDividesBack(quantity, price);
    assert CumulativeValue(filled) == ValueOf(filled);
    hide ValueOf, Notional, CumulativeValue, AverageAfter;
    assert CumulativeValue(filled) - RecordedValue(fills, o.id) == Notional(quantity, price);
    assert filled.filledQuantity - RecordedQuantity(fills, o.id) == quantity;
  }

  /** The fill's key is not in the ledger yet, so the fill is appended. */
  lemma FillIsAppended(fills: seq<FillRecord>, o: OrderRecord, quantity: real, price: real, now: int, nextId: OrderId,
                       maxFills: nat)
    requires OrderOk(o) && InLedger(o, fills) && KeyedFills(fills, nextId) && quantity > 0.0 && price > 0.0
    ensures RecordFill(fills, FilledOrder(o, quantity, price, now), "paper", maxFills)
            == Push(fills, PaperFill(o, quantity, price), maxFills)
  {
    IncrementIsTheFill(fills, o, quantity, price, now);
    var key := PaperFill(o, quantity, price).brokerFillId.value;
    hide FilledOrder, Advances, NextFill, ValueOf;
    forall k | 0 <= k < |fills|
      ensures fills[k].brokerFillId != Some(key)
    {
      assert KeyedFill(fills[k], fills, nextId);
    }
  }

  lemma FilledOrderOk(o: OrderRecord, quantity: real, price: real, now: int)
    requires OrderOk(o) && 0.0 < quantity <= o.quantity - o.filledQuantity && price > 0.0
    ensures OrderOk(FilledOrder(o, quantity, price, now))
  {
    FilledOrderValue(o, quantity, price, now);
    hide AverageAfter, ValueOf;
  }

  /** The part of the agreement about orders and keys, after one appended fill. */
  lemma AppendedFillAgrees(s: Paper, o: OrderRecord, quantity: real, price: real, now: int, id: OrderId)
    requires OrderOk(o) && InLedger(o, s.fills) && quantity > 0.0 && price > 0.0
    ensures var fills := s.fills + [PaperFill(o, quantity, price)];
            && RecordedQuantity(fills, id) == RecordedQuantity(s.fills, id) + (if id == o.id then quantity else 0.0)
            && RecordedValue(fills, id)
               == RecordedValue(s.fills, id) + (if id == o.id then Notional(quantity, price) else 0.0)
            && InLedger(FilledOrder(o, quantity, price, now), fills)
  {
    var f := PaperFill(o, quantity, price);
    FilledOrderValue(o, quantity, price, now);
    RecordedAppend(s.fills, f, id);
    RecordedAppend(s.fills, f, o.id);
    assert f.price * f.quantity == Notional(quantity, price);
    hide ValueOf, Notional, AverageAfter;
  }

  /** The holdings follow the signed ledger through one appended fill. */
  lemma AppendedFillHoldings(s: Paper, o: OrderRecord, quantity: real, price: real, sym: Symbol)
    requires Sound(s.account) && quantity > 0.0 && Affordable(s.account, o.symbol, o.side, quantity, price)
    requires SignedQuantity(s.fills, sym) == HoldingOf(s.account.holdings, sym).quantity
    ensures SignedQuantity(s.fills + [PaperFill(o, quantity, price)], sym)
            == HoldingOf(FillApplied(s.account, o.symbol, o.side, quantity, price).holdings, sym).quantity
  {
    hide Sound, Notional, Profit, Holding.Cost;
    SignedAppend(s.fills, PaperFill(o, quantity, price), sym);
  }

  lemma FillWellFormed(cfg: Config, s: Paper, o: OrderRecord, quantity: real, price: real, now: int)
    requires WellFormed(s) && OrderOk(o) && o.id < s.nextId
    requires 0.0 < quantity <= o.quantity - o.filledQuantity && price > 0.0
    requires Affordable(s.account, o.symbol, o.side, quantity, price)
    ensures WellFormed(Fill(cfg, s, o, quantity, price, now))
  {
    FilledOrderOk(o, quantity, price, now);
    ApplyFillSound(s.account, o.symbol, o.side, quantity, price);
    hide Sound, OrderOk, FilledOrder, FillApplied, RecordFill, Affordable;
    UpsertMembers(s.orders, FilledOrder(o, quantity, price, now), cfg.maxOrders);
    FilledOrderId(o, quantity, price, now);
  }

  lemma FilledOrderId(o: OrderRecord, quantity: real, price: real, now: int)
    requires o.filledQuantity + quantity > 0.0
    ensures FilledOrder(o, quantity, price, now).id == o.id
  {
  }

  /** A fill that evicts nothing keeps orders, holdings and ledger in agreement. */
  lemma FillAgrees(cfg: Config, s: Paper, o: OrderRecord, quantity: real, price: real, now: int)
    requires WellFormed(s) && Agree(s) && OrderOk(o) && o.id < s.nextId && InLedger(o, s.fills)
    requires 0.0 < quantity <= o.quantity - o.filledQuantity && price > 0.0
    requires Affordable(s.account, o.symbol, o.side, quantity, price)
    requires |s.fills| < cfg.maxFills
    ensures Agree(Fill(cfg, s, o, quantity, price, now))
    ensures |Fill(cfg, s, o, quantity, price, now).fills| == |s.fills| + 1
  {
    var after := Fill(cfg, s, o, quantity, price, now);
    var f := PaperFill(o, quantity, price);
    FillIsAppended(s.fills, o, quantity, price, now, s.nextId, cfg.maxFills);
    assert after.fills == s.fills + [f];
    UpsertMembers(s.orders, FilledOrder(o, quantity, price, now), cfg.maxOrders);
    FilledOrderId(o, quantity, price, now);
    hide FilledOrder, FillApplied, RecordFill, Affordable, OrderOk, Sound, RecordedQuantity, RecordedValue,
         SignedQuantity, Notional, Upsert;
    forall x | x in after.orders
      ensures InLedger(x, after.fills)
    {
      AppendedFillAgrees(s, o, quantity, price, now, x.id);
    }
    forall k | 0 <= k < |after.fills|
      ensures KeyedFill(after.fills[k], after.fills, after.nextId)
    {
      if k < |s.fills| {
        assert KeyedFill(s.fills[k], s.fills, s.nextId);
        AppendedFillAgrees(s, o, quantity, price, now, s.fills[k].orderId.value);
      } else {
        AppendedFillAgrees(s, o, quantity, price, now, o.id);
      }
    }
    forall sym
      ensures SignedQuantity(after.fills, sym) == HoldingOf(after.account.holdings, sym).quantity
    {
      AppendedFillHoldings(s, o, quantity, price, sym);
    }
  }

  // ---------------------------------------------------------------- refusals, acceptances and cancellations

  /** A refused fill leaves every holding as it was. */
  lemma RefusalKeeps(s: Paper, symbol: Symbol, side: Side, quantity: real, price: real)
    requires WellFormed(s) && quantity > 0.0 && price > 0.0 && !Affordable(s.account, symbol, side, quantity, price)
    ensures var after := s.(account := FillApplied(s.account, symbol, side, quantity, price));
            WellFormed(after) && (Agree(s) ==> Agree(after))
  {
    ApplyFillSound(s.account, symbol, side, quantity, price);
    hide Sound, OrderOk, InLedger, KeyedFill, SignedQuantity, Notional;
  }

  /** Storing an order that agrees with the ledger keeps the agreement. */
  lemma UpsertKeeps(cfg: Config, s: Paper, s': Paper, o: OrderRecord)
    requires WellFormed(s) && OrderOk(o) && o.id < s'.nextId && s.nextId <= s'.nextId
    requires s' == s.(orders := Upsert(s.orders, o, cfg.maxOrders), clientOrderIds := s'.clientOrderIds,
                      nextId := s'.nextId)
    requires Agree(s) ==> InLedger(o, s.fills)
    ensures WellFormed(s') && (Agree(s) ==> Agree(s'))
  {
    UpsertMembers(s.orders, o, cfg.maxOrders);
    hide Upsert, Sound, OrderOk, InLedger, SignedQuantity, RecordedQuantity;
  }

  /** No fill belongs to an order that does not exist yet. */
  lemma {:induction false} NoFillsYet(fills: seq<FillRecord>, id: OrderId)
    requires forall k :: 0 <= k < |fills| ==> fills[k].orderId.Some? && fills[k].orderId.value < id
    ensures RecordedQuantity(fills, id) == 0.0 && RecordedValue(fills, id) == 0.0
  {
    if |fills| > 0 {
      NoFillsYet(fills[..|fills| - 1], id);
    }
  }

  lemma NewOrderFillable(s: Paper, intent: OrderIntent, now: int)
    requires intent.Valid()
    ensures OrderOk(NewOrder(s.nextId, intent, now))
    ensures Agree(s) ==> InLedger(NewOrder(s.nextId, intent, now), s.fills)
  {
    if Agree(s) {
      assert forall k :: 0 <= k < |s.fills| ==> KeyedFill(s.fills[k], s.fills, s.nextId);
      NoFillsYet(s.fills, s.nextId);
    }
  }

  lemma CancelledOrderOk(o: OrderRecord, message: Option<string>, now: int, fills: seq<FillRecord>)
    requires OrderOk(o) && !o.status.Filled?
    ensures OrderOk(CancelledOrder(o, message, now))
    ensures InLedger(o, fills) ==> InLedger(CancelledOrder(o, message, now), fills)
  {
  }

  // ---------------------------------------------------------------- every operation keeps the invariant

  /** The session invariant: well-formed, and in agreement as long as the bounded ledger has dropped nothing. */
  ghost predicate Inv(cfg: Config, s: Paper) {
    WellFormed(s) && (!s.evicted ==> Agree(s))
  }

  lemma FillKeepsInv(cfg: Config, s: Paper, o: OrderRecord, quantity: real, price: real, now: int)
    requires Inv(cfg, s) && OrderOk(o) && o.id < s.nextId && (!s.evicted ==> InLedger(o, s.fills))
    requires 0.0 < quantity <= o.quantity - o.filledQuantity && price > 0.0
    requires Affordable(s.account, o.symbol, o.side, quantity, price)
    ensures Inv(cfg, Fill(cfg, s, o, quantity, price, now))
  {
    FillWellFormed(cfg, s, o, quantity, price, now);
    if !s.evicted && |s.fills| < cfg.maxFills {
      FillAgrees(cfg, s, o, quantity, price, now);
    }
  }

  lemma FillNewKeepsInv(cfg: Config, s: Paper, intent: OrderIntent, price: real, now: int)
    requires Inv(cfg, s) && intent.Valid() && price > 0.0
    ensures Inv(cfg, FillNew(cfg, s, intent, price, now))
  {
    hide Sound, OrderOk, Affordable, Fill, FillApplied, InLedger, SignedQuantity, RecordedQuantity;
    var s' := s.(nextId := s.nextId + 1);
    NewOrderFillable(s, intent, now);
    if Affordable(s.account, intent.symbol, intent.side, intent.quantity, price) {
      FillKeepsInv(cfg, s', NewOrder(s.nextId, intent, now), intent.quantity, price, now);
    } else {
      RefusalKeeps(s', intent.symbol, intent.side, intent.quantity, price);
    }
  }

  lemma AcceptKeepsInv(cfg: Config, s: Paper, intent: OrderIntent, now: int)
    requires Inv(cfg, s) && intent.Valid()
    ensures Inv(cfg, Accept(cfg, s, intent, now))
  {
    NewOrderFillable(s, intent, now);
    UpsertKeeps(cfg, s, Accept(cfg, s, intent, now), NewOrder(s.nextId, intent, now));
    hide WellFormed, Agree, Upsert;
  }

  lemma FillPricePositive(cfg: Config, side: Side, limit: real, quote: Quote)
    requires quote.Valid() && limit > 0.0
    ensures ExecutablePrice(side, quote) > 0.0 && LimitFillPrice(cfg, side, limit, quote) > 0.0
    ensures if side.Buy? then LimitFillPrice(cfg, side, limit, quote) <= limit
            else LimitFillPrice(cfg, side, limit, quote) >= limit
  {
  }

  lemma PlaceKeepsInv(cfg: Config, s: Paper, intent: OrderIntent, now: int)
    requires Inv(cfg, s) && intent.Valid()
    ensures Inv(cfg, Place(cfg, s, intent, now))
  {
    AcceptKeepsInv(cfg, s, intent, now);
    if intent.symbol in s.quotes {
      var quote := s.quotes[intent.symbol];
      var limit := if intent.price.Some? then intent.price.value else 1.0;
      FillPricePositive(cfg, intent.side, limit, quote);
      FillNewKeepsInv(cfg, s, intent, ExecutablePrice(intent.side, quote), now);
      FillNewKeepsInv(cfg, s, intent, LimitFillPrice(cfg, intent.side, limit, quote), now);
    }
    hide Inv, FillNew, Accept, ExecutablePrice, LimitFillPrice;
  }

  lemma FillQuantityFits(cfg: Config, o: OrderRecord)
    requires o.quantity - o.filledQuantity > 0.0
    ensures 0.0 < FillQuantity(cfg, o) <= o.quantity - o.filledQuantity
  {
  }

  lemma TouchKeepsInv(cfg: Config, s: Paper, o: OrderRecord, quote: Quote, now: int)
    requires Inv(cfg, s) && o in s.orders && quote.Valid()
    ensures Inv(cfg, Touch(cfg, s, o, quote, now))
  {
    if Reached(o, quote) {
      var quantity, price := FillQuantity(cfg, o), LimitFillPrice(cfg, o.side, o.price.value, quote);
      FillQuantityFits(cfg, o);
      FillPricePositive(cfg, o.side, o.price.value, quote);
      if Affordable(s.account, o.symbol, o.side, quantity, price) {
        FillKeepsInv(cfg, s, o, quantity, price, now);
      } else {
        RefusalKeeps(s, o.symbol, o.side, quantity, price);
        CancelledOrderOk(o, CANCEL_MESSAGE, now, s.fills);
        var refused := s.(account := FillApplied(s.account, o.symbol, o.side, quantity, price));
        UpsertKeeps(cfg, refused, Touch(cfg, s, o, quote, now), CancelledOrder(o, CANCEL_MESSAGE, now));
      }
    }
  }

  lemma CancelKeepsInv(cfg: Config, s: Paper, id: OrderId, now: int)
    requires Inv(cfg, s)
    ensures Inv(cfg, Cancel(cfg, s, id, now))
  {
    var i := Find(s.orders, ById(id));
    if i < |s.orders| && Open(s.orders[i]) {
      var o := s.orders[i];
      CancelledOrderOk(o, o.message, now, s.fills);
      UpsertKeeps(cfg, s, Cancel(cfg, s, id, now), CancelledOrder(o, o.message, now));
    }
  }

  /** A quote against one order leaves the rest of the table alone. */
  lemma TouchTable(cfg: Config, s: Paper, i: nat, quote: Quote, now: int)
    requires WellFormed(s) && i < |s.orders|
    ensures var after := Touch(cfg, s, s.orders[i], quote, now);
            |after.orders| == |s.orders| && (forall j :: 0 <= j < i ==> after.orders[j] == s.orders[j])
  {
    TouchedOrder(cfg, s, i, quote, now);
    hide Touch, Reached, Affordable, OrderOk;
  }

  /** A quote against the order at a position of the table. */
  ghost function TouchAt(cfg: Config, s: Paper, i: nat, quote: Quote, now: int): (r: Paper)
    requires Inv(cfg, s) && quote.Valid() && i < |s.orders|
    ensures Inv(cfg, r) && |r.orders| == |s.orders|
  {
    TouchKeepsInv(cfg, s, s.orders[i], quote, now);
    TouchTable(cfg, s, i, quote, now);
    Touch(cfg, s, s.orders[i], quote, now)
  }

  /** A quote against the listed orders, newest first, starting below position `n`. */
  ghost function ProcessBelow(cfg: Config, s: Paper, quote: Quote, n: nat, now: int): (r: Paper)
    requires Inv(cfg, s) && quote.Valid() && n <= |s.orders|
    ensures Inv(cfg, r)
    decreases n
  {
    if n == 0 then s else ProcessBelow(cfg, TouchAt(cfg, s, n - 1, quote, now), quote, n - 1, now)
  }

  lemma ProcessNone(cfg: Config, s: Paper, quote: Quote, now: int)
    requires Inv(cfg, s) && quote.Valid()
    ensures ProcessBelow(cfg, s, quote, 0, now) == s
  {
  }

  lemma TouchAtIsTouch(cfg: Config, s: Paper, n: nat, quote: Quote, now: int)
    requires Inv(cfg, s) && quote.Valid() && n < |s.orders|
    ensures Sound(s.account) && s.orders[n].filledQuantity >= 0.0
    ensures TouchAt(cfg, s, n, quote, now) == Touch(cfg, s, s.orders[n], quote, now)
    ensures forall j :: 0 <= j < n ==> TouchAt(cfg, s, n, quote, now).orders[j] == s.orders[j]
  {
    assert OrderOk(s.orders[n]);
    TouchTable(cfg, s, n, quote, now);
    hide Touch, Agree, Backs;
  }

  lemma ProcessStep(cfg: Config, s: Paper, quote: Quote, n: nat, now: int)
    requires Inv(cfg, s) && quote.Valid() && n < |s.orders|
    ensures Sound(s.account) && s.orders[n].filledQuantity >= 0.0
    ensures var after := Touch(cfg, s, s.orders[n], quote, now);
            && Inv(cfg, after) && |after.orders| == |s.orders|
            && (forall j :: 0 <= j < n ==> after.orders[j] == s.orders[j])
            && ProcessBelow(cfg, s, quote, n + 1, now) == ProcessBelow(cfg, after, quote, n, now)
  {
    TouchAtIsTouch(cfg, s, n, quote, now);
    hide Touch, Inv, Sound;
  }

  ghost function Process(cfg: Config, s: Paper, quote: Quote, now: int): (r: Paper)
    requires Inv(cfg, s) && quote.Valid()
    ensures Inv(cfg, r)
  {
    if cfg.matchRestingLimits then ProcessBelow(cfg, s, quote, |s.orders|, now) else s
  }

  // ---------------------------------------------------------------- saving and restarting

  function RetainedClientIds(orders: seq<OrderRecord>): set<string> {
    set i | 0 <= i < |orders| && orders[i].clientOrderId.Some? :: orders[i].clientOrderId.value
  }

  /** A new broker over the same store: the account as it was saved, the client ids of the retained orders. */
  function Restarted(s: Paper): Paper {
    s.(account := RestoredAccount(s.saved), clientOrderIds := RetainedClientIds(s.orders))
  }

  lemma RestartKeepsInv(cfg: Config, s: Paper)
    requires Inv(cfg, s)
    ensures Inv(cfg, Restarted(s))
    ensures Restarted(s).account == s.saved
  {
    RestoredIsSame(s.saved);
    hide Conserved, OrderOk, InLedger, KeyedFill, SignedQuantity, RestoredAccount;
  }

  /** A restart loses nothing that matters: cash, profit and every holding are as before. */
  lemma RestartKeepsAccount(cfg: Config, s: Paper, sym: Symbol)
    requires Inv(cfg, s)
    ensures var a, b := Restarted(s).account, s.account;
            && a.cash == b.cash && a.realizedPnl == b.realizedPnl && a.initialCash == b.initialCash
            && HoldingOf(a.holdings, sym) == HoldingOf(b.holdings, sym)
  {
    RestartKeepsInv(cfg, s);
  }

  lemma SaveKeepsInv(cfg: Config, s: Paper)
    requires Inv(cfg, s)
    ensures Inv(cfg, s.(saved := s.account))
  {
    hide Sound, OrderOk, InLedger, KeyedFill, SignedQuantity;
  }

  // ---------------------------------------------------------------- what a quote leaves behind

  /** The fill that a quote makes possible is affordable and does not complete the order. */
  predicate FilledInPart(cfg: Config, s: Paper, o: OrderRecord, quote: Quote) {
    && Reached(o, quote)
    && Affordable(s.account, o.symbol, o.side, FillQuantity(cfg, o), LimitFillPrice(cfg, o.side, o.price.value, quote))
    && 0 < cfg.maxFillQuantityPerQuote && cfg.maxFillQuantityPerQuote as real < o.quantity - o.filledQuantity
  }

  /** The order that a quote leaves at a position of the table. */
  lemma TouchedOrder(cfg: Config, s: Paper, i: nat, quote: Quote, now: int)
    requires WellFormed(s) && i < |s.orders|
    ensures var o, after := s.orders[i], Touch(cfg, s, s.orders[i], quote, now);
            && |after.orders| == |s.orders|
            && (forall j :: 0 <= j < |s.orders| && j != i ==> after.orders[j] == s.orders[j])
            && (!Reached(o, quote) ==> after.orders[i] == o)
            && (Reached(o, quote) ==>
                  var quantity, price := FillQuantity(cfg, o), LimitFillPrice(cfg, o.side, o.price.value, quote);
                  && quantity > 0.0
                  && after.orders[i] == if Affordable(s.account, o.symbol, o.side, quantity, price)
                                        then FilledOrder(o, quantity, price, now)
                                        else CancelledOrder(o, CANCEL_MESSAGE, now))
  {
    var o := s.orders[i];
    if Reached(o, quote) {
      FillQuantityFits(cfg, o);
      var price := LimitFillPrice(cfg, o.side, o.price.value, quote);
      UpsertAt(s.orders, i, FilledOrder(o, FillQuantity(cfg, o), price, now), cfg.maxOrders);
      UpsertAt(s.orders, i, CancelledOrder(o, CANCEL_MESSAGE, now), cfg.maxOrders);
    }
    hide Reached, FillQuantity, LimitFillPrice, FillApplied, RecordFill, Affordable, FilledOrder, Upsert, OrderOk;
  }

  /** The record that a quote turns an order into, if it reaches it. */
  function AfterTouch(cfg: Config, s: Paper, o: OrderRecord, quote: Quote, now: int): Option<OrderRecord>
    requires o.filledQuantity >= 0.0
  {
    if !Reached(o, quote) then None
    else
      var quantity, price := FillQuantity(cfg, o), LimitFillPrice(cfg, o.side, o.price.value, quote);
      Some(if Affordable(s.account, o.symbol, o.side, quantity, price) then FilledOrder(o, quantity, price, now)
           else CancelledOrder(o, CANCEL_MESSAGE, now))
  }

  /** A quote changes the order exactly when it reaches it, and then into that record; the others stay. */
  lemma TouchedDiffers(cfg: Config, s: Paper, i: nat, quote: Quote, now: int)
    requires WellFormed(s) && i < |s.orders|
    ensures s.orders[i].filledQuantity >= 0.0
    ensures var o, after := s.orders[i], Touch(cfg, s, s.orders[i], quote, now);
            && |after.orders| == |s.orders|
            && (forall j :: 0 <= j < |s.orders| && j != i ==> after.orders[j] == s.orders[j])
            && AfterTouch(cfg, s, o, quote, now) == if after.orders[i] != o then Some(after.orders[i]) else None
  {
    assert OrderOk(s.orders[i]);
    TouchedOrder(cfg, s, i, quote, now);
    hide Touch, Affordable, LimitFillPrice, LimitMarketable, AverageAfter, ValueOf, WellFormed;
  }

  /** The entries of the second list that differ from the first, last to first. */
  function Differences(before: seq<OrderRecord>, after: seq<OrderRecord>): seq<OrderRecord>
    requires |before| == |after|
  {
    if |before| == 0 then []
    else Differences(before[1..], after[1..]) + if after[0] != before[0] then [after[0]] else []
  }

  lemma {:induction false} NoDifference(orders: seq<OrderRecord>)
    ensures Differences(orders, orders) == []
  {
    if |orders| > 0 {
      NoDifference(orders[1..]);
    }
  }

  /** One step of the pass adds the touched order, if any, to the list of changed ones. */
  lemma ListedStep(cfg: Config, s: Paper, listed: seq<OrderRecord>, n: nat, quote: Quote, now: int)
    requires Inv(cfg, s) && n < |listed| == |s.orders| && s.orders[n] == listed[n]
    ensures Sound(s.account) && s.orders[n].filledQuantity >= 0.0
    ensures var after := Touch(cfg, s, s.orders[n], quote, now).orders;
            var touched := AfterTouch(cfg, s, s.orders[n], quote, now);
            var changed := Differences(listed[n + 1..], s.orders[n + 1..]);
            && |after| == |listed|
            && Differences(listed[n..], after[n..]) == if touched.Some? then changed + [touched.value] else changed
  {
    TouchedDiffers(cfg, s, n, quote, now);
    var after := Touch(cfg, s, s.orders[n], quote, now).orders;
    hide Touch, Reached, AfterTouch, WellFormed, Agree, OrderOk;
    assert listed[n..][1..] == listed[n + 1..] && after[n..][1..] == s.orders[n + 1..];
    assert AfterTouch(cfg, s, s.orders[n], quote, now).Some? <==> after[n] != listed[n];
  }

  /** A pass over the listed orders that has come down to position `n`. */
  ghost predicate MidPass(cfg: Config, s: Paper, listed: seq<OrderRecord>, quote: Quote, n: nat, now: int,
                          target: Paper, changed: seq<OrderRecord>)
  {
    && Inv(cfg, s) && quote.Valid() && n <= |listed| == |s.orders|
    && (forall j :: 0 <= j < n ==> s.orders[j] == listed[j])
    && changed == Differences(listed[n..], s.orders[n..])
    && ProcessBelow(cfg, s, quote, n, now) == target
  }

  lemma MidPassStart(cfg: Config, s: Paper, quote: Quote, now: int)
    requires Inv(cfg, s) && quote.Valid()
    ensures MidPass(cfg, s, s.orders, quote, |s.orders|, now, ProcessBelow(cfg, s, quote, |s.orders|, now), [])
  {
    hide Inv, ProcessBelow;
  }

  lemma MidPassStep(cfg: Config, s: Paper, listed: seq<OrderRecord>, quote: Quote, n: nat, now: int, target: Paper,
                    changed: seq<OrderRecord>)
    requires n < |listed| && MidPass(cfg, s, listed, quote, n + 1, now, target, changed)
    ensures Inv(cfg, s) && quote.Valid() && listed[n] in s.orders && Sound(s.account) && listed[n].filledQuantity >= 0.0
    ensures var touched := AfterTouch(cfg, s, listed[n], quote, now);
            var after := Touch(cfg, s, listed[n], quote, now);
            MidPass(cfg, after, listed, quote, n, now, target,
                    if touched.Some? then changed + [touched.value] else changed)
  {
    hide Inv, ProcessBelow, Touch, AfterTouch, Differences, Sound;
    assert s.orders[n] == listed[n];
    ProcessStep(cfg, s, quote, n, now);
    ListedStep(cfg, s, listed, n, quote, now);
  }

  lemma MidPassEnd(cfg: Config, s: Paper, listed: seq<OrderRecord>, quote: Quote, now: int, target: Paper,
                   changed: seq<OrderRecord>)
    requires MidPass(cfg, s, listed, quote, 0, now, target, changed)
    ensures Inv(cfg, s) && s == target && |s.orders| == |listed| && changed == Differences(listed, s.orders)
  {
    ProcessNone(cfg, s, quote, now);
    hide Inv, ProcessBelow, Differences;
    assert listed[0..] == listed && s.orders[0..] == s.orders;
  }

  /** After a quote, the same quote would reach the order again exactly when it was filled only in part. */
  lemma StillReachedIff(cfg: Config, s: Paper, i: nat, quote: Quote, now: int)
    requires WellFormed(s) && i < |s.orders|
    ensures |Touch(cfg, s, s.orders[i], quote, now).orders| == |s.orders|
    ensures Reached(Touch(cfg, s, s.orders[i], quote, now).orders[i], quote) <==>
              FilledInPart(cfg, s, s.orders[i], quote)
  {
    TouchedOrder(cfg, s, i, quote, now);
    hide Touch, OrderOk, Affordable, LimitFillPrice, LimitMarketable, AverageAfter, ValueOf;
  }

  ghost predicate NoneReachedFrom(orders: seq<OrderRecord>, quote: Quote, n: nat) {
    forall j :: n <= j < |orders| ==> !Reached(orders[j], quote)
  }

  lemma SettleStep(cfg: Config, s: Paper, quote: Quote, n: nat, now: int)
    requires Inv(cfg, s) && n < |s.orders|
    requires cfg.maxFillQuantityPerQuote == 0 && NoneReachedFrom(s.orders, quote, n + 1)
    ensures Sound(s.account) && s.orders[n].filledQuantity >= 0.0
    ensures NoneReachedFrom(Touch(cfg, s, s.orders[n], quote, now).orders, quote, n)
  {
    assert OrderOk(s.orders[n]);
    TouchedOrder(cfg, s, n, quote, now);
    StillReachedIff(cfg, s, n, quote, now);
    hide Touch, Reached, WellFormed, Agree, Sound, OrderOk;
  }

  lemma {:induction false} ProcessSettles(cfg: Config, s: Paper, quote: Quote, n: nat, now: int)
    requires Inv(cfg, s) && quote.Valid() && n <= |s.orders|
    requires cfg.maxFillQuantityPerQuote == 0 && NoneReachedFrom(s.orders, quote, n)
    ensures NoneReachedFrom(ProcessBelow(cfg, s, quote, n, now).orders, quote, 0)
    decreases n
  {
    hide Inv, Sound, Touch, ProcessBelow, NoneReachedFrom;
    if n == 0 {
      ProcessNone(cfg, s, quote, now);
    } else {
      SettleStep(cfg, s, quote, n - 1, now);
      ProcessStep(cfg, s, quote, n - 1, now);
      ProcessSettles(cfg, Touch(cfg, s, s.orders[n - 1], quote, now), quote, n - 1, now);
    }
  }

  lemma {:induction false} ProcessIdle(cfg: Config, s: Paper, quote: Quote, n: nat, now: int)
    requires Inv(cfg, s) && quote.Valid() && n <= |s.orders| && NoneReachedFrom(s.orders, quote, 0)
    ensures ProcessBelow(cfg, s, quote, n, now) == s
    decreases n
  {
    hide Inv, Sound, Touch, ProcessBelow, Reached;
    if n == 0 {
      ProcessNone(cfg, s, quote, now);
    } else {
      ProcessStep(cfg, s, quote, n - 1, now);
      UnreachedIsIdle(cfg, s, s.orders[n - 1], quote, now);
      ProcessIdle(cfg, s, quote, n - 1, now);
    }
  }

  lemma UnreachedIsIdle(cfg: Config, s: Paper, o: OrderRecord, quote: Quote, now: int)
    requires Sound(s.account) && o.filledQuantity >= 0.0 && !Reached(o, quote)
    ensures Touch(cfg, s, o, quote, now) == s
  {
  }

  /**
    Main result on quotes: without a per-quote limit one pass leaves no retained order that the quote
    reaches, so the same quote again, at any later time, changes nothing.
   */
  lemma QuoteAgainIsIdle(cfg: Config, s: Paper, quote: Quote, now: int, later: int)
    requires Inv(cfg, s) && quote.Valid() && cfg.maxFillQuantityPerQuote == 0
    ensures var once := Process(cfg, s, quote, now);
            && (cfg.matchRestingLimits ==> NoneReachedFrom(once.orders, quote, 0))
            && Process(cfg, once, quote, later) == once
  {
    hide ProcessBelow, Reached, Inv;
    if cfg.matchRestingLimits {
      ProcessSettles(cfg, s, quote, |s.orders|, now);
      var once := Process(cfg, s, quote, now);
      ProcessIdle(cfg, once, quote, |once.orders|, later);
    }
  }

  // ---------------------------------------------------------------- runs

  datatype Op =
    | PlaceOp(intent: OrderIntent, now: int)
    | QuoteOp(quote: Quote)
    | ProcessOp(quote: Quote, now: int)
    | CancelOp(id: OrderId, now: int)
    | SaveOp
    | RestartOp
  {
    predicate Valid() {
      match this
      case PlaceOp(intent, _) => intent.Valid()
      case QuoteOp(quote) => quote.Valid()
      case ProcessOp(quote, _) => quote.Valid()
      case CancelOp(_, _) => true
      case SaveOp => true
      case RestartOp => true
    }
  }

  function StoreQuote(quotes: map<Symbol, Quote>, quote: Quote): map<Symbol, Quote> {
    if Outdated(quotes, quote) then quotes else quotes[quote.symbol := quote]
  }

  ghost function Step(cfg: Config, s: Paper, op: Op): (r: Paper)
    requires Inv(cfg, s) && op.Valid()
    ensures Inv(cfg, r)
  {
    match op
    case PlaceOp(intent, now) => PlaceKeepsInv(cfg, s, intent, now); Place(cfg, s, intent, now)
    case QuoteOp(quote) => s.(quotes := StoreQuote(s.quotes, quote))
    case ProcessOp(quote, now) => Process(cfg, s, quote, now)
    case CancelOp(id, now) => CancelKeepsInv(cfg, s, id, now); Cancel(cfg, s, id, now)
    case SaveOp => SaveKeepsInv(cfg, s); s.(saved := s.account)
    case RestartOp => RestartKeepsInv(cfg, s); Restarted(s)
  }

  predicate ValidOps(ops: seq<Op>) {
    forall i :: 0 <= i < |ops| ==> ops[i].Valid()
  }

  ghost function Run(cfg: Config, s: Paper, ops: seq<Op>): (r: Paper)
    requires Inv(cfg, s) && ValidOps(ops)
    ensures Inv(cfg, r)
    decreases |ops|
  {
    if |ops| == 0 then s else Run(cfg, Step(cfg, s, ops[0]), ops[1..])
  }

  function Opening(initialCash: real): Paper {
    var account := Account(initialCash, initialCash, 0.0, map[]);
    Paper([], [], map[], account, account, {}, 0, false)
  }

  lemma OpeningInv(cfg: Config, initialCash: real)
    requires initialCash >= 0.0
    ensures Inv(cfg, Opening(initialCash))
  {
    OpeningSound(initialCash);
  }

  /**
    Main result: after every run of placements, quotes, cancellations and restarts whose ledger has
    dropped nothing, each retained order's filled quantity and value are the sums of its ledger fills, no
    order is filled beyond its quantity, every symbol's signed ledger sum is the holding, and
    money is conserved.
   */
  lemma EveryRunAgrees(cfg: Config, initialCash: real, ops: seq<Op>)
    requires initialCash >= 0.0 && ValidOps(ops)
    ensures Inv(cfg, Opening(initialCash))
    ensures var s := Run(cfg, Opening(initialCash), ops);
            && Sound(s.account)
            && (forall o :: o in s.orders ==> 0.0 <= o.filledQuantity <= o.quantity && !o.status.NeedsReconciliation?)
            && (!s.evicted ==>
                  && (forall o :: o in s.orders ==>
                        && o.filledQuantity == RecordedQuantity(s.fills, o.id)
                        && ValueOf(o) == RecordedValue(s.fills, o.id))
                  && (forall sym :: SignedQuantity(s.fills, sym) == HoldingOf(s.account.holdings, sym).quantity))
  {
    OpeningInv(cfg, initialCash);
    var s := Run(cfg, Opening(initialCash), ops);
    hide Sound, RecordedQuantity, RecordedValue, SignedQuantity, ValueOf, Run;
    assert Inv(cfg, s);
  }

  /** Reporting a retained order once more, from any source, never changes the ledger. */
  lemma ReportingAgainIsIdle(cfg: Config, s: Paper, o: OrderRecord, source: string)
    requires Inv(cfg, s) && !s.evicted && o in s.orders
    ensures RecordFill(s.fills, o, source, cfg.maxFills) == s.fills
  {
    hide DeltaFill;
    assert InLedger(o, s.fills);
  }

  // ---------------------------------------------------------------- the broker object

  /** What `place_order` raises on: a repeated client id, a market order without a quote, or an unaffordable fill. */
  predicate Refused(cfg: Config, s: Paper, intent: OrderIntent)
    requires intent.Valid()
  {
    || (Present(intent.clientOrderId) && intent.clientOrderId.value in s.clientOrderIds)
    || (intent.orderType.Market? && intent.symbol !in s.quotes)
    || (intent.symbol in s.quotes
        && var quote := s.quotes[intent.symbol];
        if intent.orderType.Market?
        then !Affordable(s.account, intent.symbol, intent.side, intent.quantity, ExecutablePrice(intent.side, quote))
        else LimitMarketable(intent.side, intent.price.value, quote)
             && !Affordable(s.account, intent.symbol, intent.side, intent.quantity,
                            LimitFillPrice(cfg, intent.side, intent.price.value, quote)))
  }

  /** The account that a restart would find; without anything saved it opens afresh. */
  function SavedView(saved: Option<Payload>, initialCash: real): Account {
    if saved.Some? then StoredAccount(saved.value, initialCash) else Account(initialCash, initialCash, 0.0, map[])
  }

  class Broker {
    const cfg: Config
    const store: StateStore
    const account: PaperPortfolio
    var clientOrderIds: set<string>
    var nextId: OrderId
    ghost var evicted: bool

    ghost function View(): Paper
      reads this, store, account
    {
      Paper(store.orders, store.fills, store.quotes, account.View(), SavedView(account.saved, account.initialCash),
            clientOrderIds, nextId, evicted)
    }

    ghost predicate Valid()
      reads this, store, account
    {
      && store.maxOrders == cfg.maxOrders && store.maxFills == cfg.maxFills
      && Inv(cfg, View())
    }

    constructor (historySize: nat, maxOrders: nat, initialCash: real, matchRestingLimits: bool,
                 maxFillQuantityPerQuote: int, priceImprovement: bool)
      requires initialCash >= 0.0
      ensures Valid() && View() == Opening(initialCash) && fresh(store) && fresh(account)
    {
      cfg := Config(maxOrders, 4 * historySize, matchRestingLimits,
                    if maxFillQuantityPerQuote < 0 then 0 else maxFillQuantityPerQuote, priceImprovement);
      store := new StateStore(historySize, maxOrders);
      account := new PaperPortfolio(initialCash, None);
      clientOrderIds, nextId, evicted := {}, 0, false;
      new;
      OpeningInv(cfg, initialCash);
    }

    /** A new broker over a store that a previous one left behind in the state `before`. */
    constructor Restart(cfg: Config, store: StateStore, stored: Option<Payload>, initialCash: real, nextId: OrderId,
                        ghost before: Paper)
      requires store.maxOrders == cfg.maxOrders && store.maxFills == cfg.maxFills && Inv(cfg, before)
      requires before.orders == store.orders && before.fills == store.fills && before.quotes == store.quotes
      requires before.saved == SavedView(stored, initialCash) && before.nextId == nextId
      ensures Valid() && View() == Restarted(before) && this.cfg == cfg && this.store == store && fresh(account)
    {
      this.cfg, this.store := cfg, store;
      account := new PaperPortfolio(initialCash, stored);
      clientOrderIds, this.nextId, evicted := RetainedClientIds(store.orders), nextId, before.evicted;
      new;
      RestartKeepsInv(cfg, before);
      hide Inv;
      assert View() == Restarted(before);
    }

    /** Fill (part of) an order: account first, then the order record, then the ledger. */
    method ApplyFill(o: OrderRecord, quantity: real, price: real, now: int) returns (filled: Option<OrderRecord>)
      requires Sound(account.View()) && OrderOk(o) && price > 0.0
      requires 0.0 < quantity <= o.quantity - o.filledQuantity
      requires store.maxOrders == cfg.maxOrders && store.maxFills == cfg.maxFills
      modifies this`clientOrderIds, this`evicted, store, account
      ensures filled.Some? <==> Affordable(old(account.View()), o.symbol, o.side, quantity, price)
      ensures filled.Some? ==> View() == Fill(cfg, old(View()), o, quantity, price, now)
                               && filled.value == FilledOrder(o, quantity, price, now)
      ensures filled.None? ==>
                View() == old(View()).(account := FillApplied(old(account.View()), o.symbol, o.side, quantity, price))
    {
      assert o.filledQuantity >= 0.0;
      ghost var before := View();
      hide Sound, OrderOk, Affordable, FillApplied, RecordFill, Upsert, ValueOf, AverageAfter, Advances, NextFill;
      var ok := account.ApplyFill(o.symbol, o.side, quantity, price);
      if !ok {
        return None;
      }
      var total := o.filledQuantity + quantity;
      var order := o.(averageFillPrice := Some(AverageAfter(ValueOf(o), quantity, price, total)),
                      filledQuantity := total,
                      status := if total >= o.quantity then OrderStatus.Filled else PartiallyFilled,
                      updatedAt := now);
      assert order == FilledOrder(o, quantity, price, now);
      hide FilledOrder;
      RecordFilled(order);
      assert View() == Fill(cfg, before, o, quantity, price, now);
      filled := Some(order);
    }

    /** Store a filled order and its increment, and claim its client id. */
    method RecordFilled(order: OrderRecord)
      requires store.maxOrders == cfg.maxOrders && store.maxFills == cfg.maxFills
      modifies this`clientOrderIds, this`evicted, store
      ensures View() == old(View()).(orders := Upsert(old(store.orders), order, cfg.maxOrders),
                                     fills := RecordFill(old(store.fills), order, "paper", cfg.maxFills),
                                     clientOrderIds := WithClientId(old(clientOrderIds), order.clientOrderId),
                                     evicted := old(evicted) || |old(store.fills)| >= cfg.maxFills)
    {
      hide RecordFill, Upsert, Advances, NextFill, InvalidIncrement, SavedView;
      store.UpsertOrder(order);
      evicted := evicted || |store.fills| >= cfg.maxFills;
      var _ := store.RecordOrderFill(order, "paper");
      if Present(order.clientOrderId) {
        clientOrderIds := clientOrderIds + {order.clientOrderId.value};
      }
    }

    /** A new order that is executable at once. */
    method FillNewOrder(intent: OrderIntent, price: real, now: int) returns (placed: Option<OrderRecord>)
      requires Valid() && intent.Valid() && price > 0.0
      modifies this, store, account
      ensures View() == FillNew(cfg, old(View()), intent, price, now)
      ensures placed.Some? <==> Affordable(old(account.View()), intent.symbol, intent.side, intent.quantity, price)
      ensures placed.Some? ==> placed.value.id == old(nextId)
                               && store.orders == Upsert(old(store.orders), placed.value, cfg.maxOrders)
    {
      NewOrderFillable(View(), intent, now);
      hide Agree, OrderOk, Sound, FillApplied, RecordFill, Upsert, FilledOrder, Affordable;
      var order := NewOrder(nextId, intent, now);
      nextId := nextId + 1;
      placed := ApplyFill(order, intent.quantity, price, now);
      FilledOrderId(order, intent.quantity, price, now);
    }

    method PlaceOrder(intent: OrderIntent, now: int) returns (placed: Option<OrderRecord>)
      requires Valid() && intent.Valid()
      modifies this, store, account
      ensures Valid() && View() == Place(cfg, old(View()), intent, now)
      ensures placed.None? <==> Refused(cfg, old(View()), intent)
      ensures placed.Some? ==> placed.value.id == old(nextId)
                               && store.orders == Upsert(old(store.orders), placed.value, cfg.maxOrders)
    {
      PlaceKeepsInv(cfg, View(), intent, now);
      if intent.symbol in store.quotes {
        ghost var limit := if intent.price.Some? then intent.price.value else 1.0;
        FillPricePositive(cfg, intent.side, limit, store.quotes[intent.symbol]);
      }
      hide Inv, Upsert, FillNew, Accept, Affordable, ExecutablePrice, LimitFillPrice, LimitMarketable, SavedView;
      if Present(intent.clientOrderId) && intent.clientOrderId.value in clientOrderIds {
        return None;
      }
      if intent.symbol in store.quotes {
        var quote := store.quotes[intent.symbol];
        if intent.orderType.Market? {
          placed := FillNewOrder(intent, ExecutablePrice(intent.side, quote), now);
          return;
        }
        if LimitMarketable(intent.side, intent.price.value, quote) {
          placed := FillNewOrder(intent, LimitFillPrice(cfg, intent.side, intent.price.value, quote), now);
          return;
        }
      } else if intent.orderType.Market? {
        return None;
      }
      var order := AcceptOrder(intent, now);
      placed := Some(order);
    }

    /** A new order that rests. */
    method AcceptOrder(intent: OrderIntent, now: int) returns (order: OrderRecord)
      requires store.maxOrders == cfg.maxOrders
      modifies this`nextId, this`clientOrderIds, store`orders
      ensures View() == Accept(cfg, old(View()), intent, now)
      ensures order == NewOrder(old(nextId), intent, now)
      ensures store.orders == Upsert(old(store.orders), order, cfg.maxOrders)
    {
      hide Upsert;
      order := NewOrder(nextId, intent, now);
      nextId := nextId + 1;
      store.UpsertOrder(order);
      if Present(intent.clientOrderId) {
        clientOrderIds := clientOrderIds + {intent.clientOrderId.value};
      }
    }

    /**
      Match resting limits against a quote, over the order list as it was at the start, newest first. The
      orders that changed are returned in that order.
     */
    method ProcessQuote(quote: Quote, now: int) returns (changed: seq<OrderRecord>)
      requires Valid() && quote.Valid()
      modifies this, store, account
      ensures Valid() && View() == Process(cfg, old(View()), quote, now)
      ensures |store.orders| == |old(store.orders)| && changed == Differences(old(store.orders), store.orders)
    {
      changed := [];
      NoDifference([]);
      if !cfg.matchRestingLimits {
        NoDifference(store.orders);
        return;
      }
      ghost var target := Process(cfg, View(), quote, now);
      var listed := store.orders;
      var n := |listed|;
      MidPassStart(cfg, View(), quote, now);
      hide Inv, MidPass;
      while n > 0
        invariant 0 <= n <= |listed| && quote.Valid()
        invariant store.maxOrders == cfg.maxOrders && store.maxFills == cfg.maxFills
        invariant MidPass(cfg, View(), listed, quote, n, now, target, changed)
      {
        n := n - 1;
        changed := TouchListed(listed, n, quote, now, target, changed);
      }
      MidPassEnd(cfg, View(), listed, quote, now, target, changed);
    }

    /** The body of the loop: one listed order, and the orders changed so far. */
    method TouchListed(listed: seq<OrderRecord>, n: nat, quote: Quote, now: int, ghost target: Paper,
                       changed: seq<OrderRecord>)
        returns (changed': seq<OrderRecord>)
      requires store.maxOrders == cfg.maxOrders && store.maxFills == cfg.maxFills && quote.Valid() && n < |listed|
      requires MidPass(cfg, View(), listed, quote, n + 1, now, target, changed)
      modifies this`clientOrderIds, this`evicted, store, account
      ensures MidPass(cfg, View(), listed, quote, n, now, target, changed')
    {
      hide Inv, MidPass, Touch, AfterTouch, Sound;
      ghost var before := View();
      MidPassStep(cfg, before, listed, quote, n, now, target, changed);
      var touched := TouchOrder(listed[n], quote, now);
      assert View() == Touch(cfg, before, listed[n], quote, now);
      changed' := if touched.Some? then changed + [touched.value] else changed;
    }

    /** One resting order against a quote: its new record when it was filled or cancelled. */
    method TouchOrder(o: OrderRecord, quote: Quote, now: int) returns (touched: Option<OrderRecord>)
      requires Valid() && quote.Valid() && o in store.orders
      modifies this`clientOrderIds, this`evicted, store, account
      ensures Sound(old(account.View())) && o.filledQuantity >= 0.0
      ensures View() == Touch(cfg, old(View()), o, quote, now)
      ensures touched == AfterTouch(cfg, old(View()), o, quote, now)
    {
      assert OrderOk(o);
      if o.symbol != quote.symbol || !o.orderType.Limit? {
        return None;
      }
      if !o.status.Accepted? && !o.status.PartiallyFilled? {
        return None;
      }
      if o.price.None? || !LimitMarketable(o.side, o.price.value, quote) {
        return None;
      }
      var remaining := MaxReal(o.quantity - o.filledQuantity, 0.0);
      if remaining <= 0.0 {
        return None;
      }
      FillQuantityFits(cfg, o);
      FillPricePositive(cfg, o.side, o.price.value, quote);
      hide Sound, OrderOk, Affordable, FillApplied, RecordFill, Upsert, FilledOrder, LimitFillPrice, ExecutablePrice;
      var price := LimitFillPrice(cfg, o.side, o.price.value, quote);
      var filled := ApplyFill(o, FillQuantity(cfg, o), price, now);
      if filled.Some? {
        return filled;
      }
      var cancelled := CancelledOrder(o, CANCEL_MESSAGE, now);
      store.UpsertOrder(cancelled);
      touched := Some(cancelled);
    }

    /** A quote arrives at the store. */
    method UpdateQuote(quote: Quote) returns (stored: Quote)
      requires Valid() && quote.Valid()
      modifies store
      ensures Valid() && View() == Step(cfg, old(View()), QuoteOp(quote))
      ensures stored == store.quotes[quote.symbol] && stored.timestamp >= quote.timestamp
    {
      ghost var before := View();
      ghost var target := Step(cfg, before, QuoteOp(quote));
      stored := store.UpdateQuote(quote);
      assert store.quotes == StoreQuote(before.quotes, quote);
      assert View() == target;
    }

    /** The account is valued; a new equity high saves it. */
    method PortfolioSnapshot() returns (snap: Portfolio.PortfolioSnapshot)
      requires Valid()
      modifies account
      ensures Valid()
      ensures snap.equity > old(account.peakEquity) ==> View() == Step(cfg, old(View()), SaveOp)
      ensures snap.equity <= old(account.peakEquity) ==> View() == old(View())
      ensures BySymbol(snap.positions) == Held(account.holdings) && |snap.positions| == |Held(account.holdings)|
      ensures snap.equity == account.initialCash + account.realizedPnl + snap.unrealizedPnl
    {
      ghost var before := View();
      SaveKeepsInv(cfg, before);
      ghost var target := Step(cfg, before, SaveOp);
      assert target == before.(saved := before.account);
      hide Inv, Step, Held, BySymbol;
      snap := account.Snapshot(store.quotes);
      assert View() == target || View() == before;
    }

    method CancelOrder(id: OrderId, now: int) returns (cancelled: Option<OrderRecord>)
      requires Valid()
      modifies this, store
      ensures Valid() && View() == Cancel(cfg, old(View()), id, now)
      ensures cancelled.Some? <==> exists o :: o in old(store.orders) && o.id == id && Open(o)
      ensures cancelled.Some? ==> cancelled.value.id == id && cancelled.value.status.Cancelled?
    {
      CancelKeepsInv(cfg, View(), id, now);
      var found := store.FindOrder(ById(id));
      if found.None? || !Open(found.value) {
        return None;
      }
      var order := CancelledOrder(found.value, found.value.message, now);
      store.UpsertOrder(order);
      cancelled := Some(order);
    }
  }
}
