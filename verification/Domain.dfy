/**
  The records that the trading control plane passes around. Money, prices and quantities are
  exact reals, timestamps are integers, and an identifier that the program generates (a UUID)
  is a natural number.
 */
module Domain {

  datatype Option<+T> = None | Some(value: T)

  type Symbol = string
  type OrderId = nat

  datatype Side = Buy | Sell | Up | Down

  datatype OrderType = Limit | Market

  datatype OrderStatus =
    | Pending
    | Accepted
    | Rejected
    | Cancelled
    | PartiallyFilled
    | Filled
    | NeedsReconciliation

  datatype Quote = Quote(symbol: Symbol, last: real, bid: Option<real>, offer: Option<real>, timestamp: int) {
    /** The field constraints of a quote: every price present is positive. */
    predicate Valid() {
      && last > 0.0
      && (bid.Some? ==> bid.value > 0.0)
      && (offer.Some? ==> offer.value > 0.0)
    }
  }

  datatype OrderIntent = OrderIntent(
    symbol: Symbol,
    side: Side,
    quantity: real,
    orderType: OrderType,
    price: Option<real>,
    stopLoss: Option<real>,
    takeProfit: Option<real>,
    clientOrderId: Option<string>,
    source: string)
  {
    /** The field constraints of an intent: positive quantity and positive prices. */
    predicate Valid() {
      && quantity > 0.0
      && (price.Some? ==> price.value > 0.0)
      && (orderType.Limit? ==> price.Some?)
    }
  }

  datatype OrderRecord = OrderRecord(
    id: OrderId,
    brokerOrderId: Option<string>,
    clientOrderId: Option<string>,
    symbol: Symbol,
    side: Side,
    quantity: real,
    filledQuantity: real,
    orderType: OrderType,
    price: Option<real>,
    averageFillPrice: Option<real>,
    stopLoss: Option<real>,
    takeProfit: Option<real>,
    status: OrderStatus,
    source: string,
    message: Option<string>,
    correlationId: Option<string>,
    createdAt: int,
    updatedAt: int)

  /** What a fill's de-duplication key refers to: the broker's order id if there is one, otherwise the local id. */
  datatype FillRef = BrokerRef(brokerOrderId: string) | LocalRef(id: OrderId)

  /** The structured form of the text `source:reference:cumulative quantity`. */
  datatype FillKey = FillKey(source: string, reference: FillRef, cumulative: real)

  datatype FillRecord = FillRecord(
    brokerFillId: Option<FillKey>,
    orderId: Option<OrderId>,
    brokerOrderId: Option<string>,
    symbol: Symbol,
    side: Side,
    quantity: real,
    price: real)

  /** Optional text counts as absent when it is missing or empty. */
  predicate Present(text: Option<string>) {
    text.Some? && text.value != ""
  }

  function OrElse(text: Option<string>, fallback: Option<string>): Option<string> {
    if Present(text) then text else fallback
  }

  function MaxReal(x: real, y: real): real {
    if x >= y then x else y
  }

  function MinReal(x: real, y: real): real {
    if x <= y then x else y
  }

  function MinInt(x: int, y: int): int {
    if x <= y then x else y
  }
}
