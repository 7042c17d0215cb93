/**
  The state store: the retained order table, the bounded fill ledger, the claimed client order
  ids, the reconciliation flag and the latest quotes. The functions give the value of each
  operation; the class holds the fields and changes them in place.
 */
module Store {
  import opened Domain

  // ---------------------------------------------------------------- the order table

  /** What an order is looked up by. A caller's order id may be the text of a local id or a broker's id. */
  datatype Lookup =
    | ById(id: OrderId)
    | ByBroker(brokerOrderId: string)
    | ByClient(clientOrderId: string)
    | ByEither(local: Option<OrderId>, brokerOrderId: string)

  predicate Matches(o: OrderRecord, key: Lookup) {
    match key
    case ById(id) => o.id == id
    case ByBroker(b) => o.brokerOrderId == Some(b)
    case ByClient(c) => o.clientOrderId == Some(c)
    case ByEither(local, b) => local == Some(o.id) || o.brokerOrderId == Some(b)
  }

  /** The index of the first order that matches, or the length of the table. */
  function Find(orders: seq<OrderRecord>, key: Lookup): (i: nat)
    ensures i <= |orders|
    ensures i < |orders| ==> Matches(orders[i], key)
    ensures forall j :: 0 <= j < i ==> !Matches(orders[j], key)
  {
    if |orders| == 0 || Matches(orders[0], key) then 0 else 1 + Find(orders[1..], key)
  }

  /** An index that matches while no earlier one does is the one that `Find` returns. */
  lemma FindIsFirst(orders: seq<OrderRecord>, key: Lookup, i: nat)
    requires i <= |orders|
    requires i < |orders| ==> Matches(orders[i], key)
    requires forall j :: 0 <= j < i ==> !Matches(orders[j], key)
    ensures Find(orders, key) == i
  {
  }

  /** Replace the order with the same id, or append it and archive the oldest ones over the limit. */
  function Upsert(orders: seq<OrderRecord>, o: OrderRecord, maxOrders: nat): seq<OrderRecord> {
    var i := Find(orders, ById(o.id));
    if i < |orders| then orders[i := o]
    else if |orders| + 1 <= maxOrders then orders + [o]
    else (orders + [o])[|orders| + 1 - maxOrders..]
  }

  ghost predicate DistinctIds(orders: seq<OrderRecord>) {
    forall i, j :: 0 <= i < j < |orders| ==> orders[i].id != orders[j].id
  }

  /** The upserted order is in the table, unless the table may hold nothing. */
  lemma UpsertStores(orders: seq<OrderRecord>, o: OrderRecord, maxOrders: nat)
    requires maxOrders > 0
    ensures o in Upsert(orders, o, maxOrders)
  {
    var i, after := Find(orders, ById(o.id)), Upsert(orders, o, maxOrders);
    assert after[if i < |orders| then i else |after| - 1] == o;
  }

  /** The only member that can carry the stored order's id is the stored order. */
  ghost predicate OnlyBeside(after: seq<OrderRecord>, orders: seq<OrderRecord>, o: OrderRecord) {
    DistinctIds(after) && forall x :: x in after ==> x == o || (x in orders && x.id != o.id)
  }

  lemma ReplaceMembers(orders: seq<OrderRecord>, i: nat, o: OrderRecord)
    requires DistinctIds(orders) && i < |orders| && orders[i].id == o.id
    ensures OnlyBeside(orders[i := o], orders, o)
  {
    var after := orders[i := o];
    assert forall j :: 0 <= j < |orders| && j != i ==> after[j] == orders[j] && after[j].id != o.id;
  }

  lemma AppendMembers(orders: seq<OrderRecord>, o: OrderRecord, cut: nat)
    requires DistinctIds(orders) && cut <= |orders| + 1 && forall j :: 0 <= j < |orders| ==> orders[j].id != o.id
    ensures OnlyBeside((orders + [o])[cut..], orders, o)
  {
    var grown, after := orders + [o], (orders + [o])[cut..];
    assert forall j :: 0 <= j < |after| ==> after[j] == grown[cut + j];
  }

  /**
    With distinct ids an upsert keeps them distinct, stores the new order, keeps only old orders
    beside it, and drops its old version.
   */
  lemma UpsertMembers(orders: seq<OrderRecord>, o: OrderRecord, maxOrders: nat)
    requires DistinctIds(orders)
    ensures var after := Upsert(orders, o, maxOrders);
            && DistinctIds(after)
            && (maxOrders > 0 ==> o in after)
            && (forall x :: x in after ==> x == o || (x in orders && x.id != o.id))
  {
    if maxOrders > 0 {
      UpsertStores(orders, o, maxOrders);
    }
    var i := Find(orders, ById(o.id));
    if i < |orders| {
      ReplaceMembers(orders, i, o);
    } else {
      var cut := if |orders| + 1 <= maxOrders then 0 else |orders| + 1 - maxOrders;
      AppendMembers(orders, o, cut);
      assert (orders + [o])[0..] == orders + [o];
    }
    hide DistinctIds, Find;
  }

  /** Upserting over the order at a known position changes that position only. */
  lemma UpsertAt(orders: seq<OrderRecord>, i: nat, o: OrderRecord, maxOrders: nat)
    requires i < |orders| && DistinctIds(orders) && orders[i].id == o.id
    ensures Upsert(orders, o, maxOrders) == orders[i := o]
  {
    FindIsFirst(orders, ById(o.id), i);
  }

  // ---------------------------------------------------------------- the fill ledger

  predicate Of(f: FillRecord, id: OrderId) {
    f.orderId == Some(id)
  }

  /** The quantity that the ledger holds for an order. */
  function RecordedQuantity(fills: seq<FillRecord>, id: OrderId): real {
    if |fills| == 0 then 0.0
    else
      var last := fills[|fills| - 1];
      RecordedQuantity(fills[..|fills| - 1], id) + if Of(last, id) then last.quantity else 0.0
  }

  /** The money value that the ledger holds for an order. */
  function RecordedValue(fills: seq<FillRecord>, id: OrderId): real {
    if |fills| == 0 then 0.0
    else
      var last := fills[|fills| - 1];
      RecordedValue(fills[..|fills| - 1], id) + if Of(last, id) then last.price * last.quantity else 0.0
  }

  lemma RecordedAppend(fills: seq<FillRecord>, f: FillRecord, id: OrderId)
    ensures RecordedQuantity(fills + [f], id) == RecordedQuantity(fills, id) + if Of(f, id) then f.quantity else 0.0
    ensures RecordedValue(fills + [f], id) == RecordedValue(fills, id) + if Of(f, id) then f.price * f.quantity else 0.0
  {
    assert (fills + [f])[..|fills + [f]| - 1] == fills;
  }

  ghost predicate HasKey(fills: seq<FillRecord>, key: FillKey) {
    exists i :: 0 <= i < |fills| && fills[i].brokerFillId == Some(key)
  }

  /** Appending to a bounded queue drops the oldest entries beyond its capacity. */
  function Push(fills: seq<FillRecord>, f: FillRecord, maxFills: nat): seq<FillRecord> {
    if |fills| + 1 <= maxFills then fills + [f] else (fills + [f])[|fills| + 1 - maxFills..]
  }

  /** A bounded queue holds the newest entries, as many as it may. */
  lemma PushKeepsNewest(fills: seq<FillRecord>, f: FillRecord, maxFills: nat)
    requires |fills| <= maxFills
    ensures var after := Push(fills, f, maxFills);
            && |after| == (if |fills| < maxFills then |fills| + 1 else maxFills)
            && after == (fills + [f])[|fills| + 1 - |after|..]
  {
  }

  /** An upsert replaces in place, or appends and archives the oldest beyond the limit. */
  lemma UpsertPlaces(orders: seq<OrderRecord>, o: OrderRecord, maxOrders: nat)
    requires |orders| <= maxOrders
    ensures var after := Upsert(orders, o, maxOrders);
            && ((exists x :: x in orders && x.id == o.id) ==>
                  && |after| == |orders|
                  && forall i :: 0 <= i < |orders| ==> after[i] == orders[i] || (after[i] == o && orders[i].id == o.id))
            && ((forall x :: x in orders ==> x.id != o.id) ==>
                  && |after| == (if |orders| < maxOrders then |orders| + 1 else maxOrders)
                  && after == (orders + [o])[|orders| + 1 - |after|..])
  {
    var i := Find(orders, ById(o.id));
    if i < |orders| {
      assert orders[i] in orders;
    } else {
      assert forall x :: x in orders ==> !Matches(x, ById(o.id));
    }
    hide Find;
  }

  ghost function WithFill(fills: seq<FillRecord>, f: FillRecord, maxFills: nat): seq<FillRecord> {
    if f.brokerFillId.Some? && HasKey(fills, f.brokerFillId.value) then fills else Push(fills, f, maxFills)
  }

  /** The snapshot carries a fill and a non-zero average price, so it is examined at all. */
  predicate Examined(o: OrderRecord) {
    o.filledQuantity > 0.0 && o.averageFillPrice.Some? && o.averageFillPrice.value != 0.0
  }

  function CumulativeValue(o: OrderRecord): real
    requires Examined(o)
  {
    o.averageFillPrice.value * o.filledQuantity
  }

  function KeyRef(o: OrderRecord): FillRef {
    if Present(o.brokerOrderId) then BrokerRef(o.brokerOrderId.value) else LocalRef(o.id)
  }

  /** Two snapshots share a reference exactly when they share a broker id, or have none and are the same local order. */
  lemma SameRefIff(a: OrderRecord, b: OrderRecord)
    ensures KeyRef(a) == KeyRef(b) <==>
              if a.brokerOrderId.Some? && a.brokerOrderId.value != ""
              then b.brokerOrderId == a.brokerOrderId
              else (b.brokerOrderId.None? || b.brokerOrderId.value == "") && a.id == b.id
  {
  }

  /** The increment between what is recorded and a cumulative snapshot. */
  function DeltaFill(o: OrderRecord, source: string, recordedQuantity: real, recordedValue: real): FillRecord
    requires Examined(o) && o.filledQuantity > recordedQuantity
  {
    var deltaQuantity := o.filledQuantity - recordedQuantity;
    var deltaValue := CumulativeValue(o) - recordedValue;
    FillRecord(
      Some(FillKey(source, KeyRef(o), o.filledQuantity)),
      Some(o.id), o.brokerOrderId, o.symbol, o.side,
      deltaQuantity,
      if deltaValue > 0.0 then deltaValue / deltaQuantity else o.averageFillPrice.value)
  }

  /** An increment without a positive price can only come from a negative average price. */
  lemma IncrementPriceSign(o: OrderRecord, source: string, recordedQuantity: real, recordedValue: real)
    requires Examined(o) && o.filledQuantity > recordedQuantity
    requires DeltaFill(o, source, recordedQuantity, recordedValue).price <= 0.0
    ensures o.averageFillPrice.value < 0.0
  {
    hide CumulativeValue;
  }

  /** The snapshot reaches further than the ledger and its increment is a valid fill (positive price). */
  predicate Advances(fills: seq<FillRecord>, o: OrderRecord) {
    && Examined(o)
    && o.filledQuantity > RecordedQuantity(fills, o.id)
    && DeltaFill(o, "", RecordedQuantity(fills, o.id), RecordedValue(fills, o.id)).price > 0.0
  }

  /** The snapshot reaches further than the ledger, but its increment would not be a valid fill. */
  predicate InvalidIncrement(fills: seq<FillRecord>, o: OrderRecord) {
    && Examined(o)
    && o.filledQuantity > RecordedQuantity(fills, o.id)
    && DeltaFill(o, "", RecordedQuantity(fills, o.id), RecordedValue(fills, o.id)).price <= 0.0
  }

  function NextFill(fills: seq<FillRecord>, o: OrderRecord, source: string): FillRecord
    requires Advances(fills, o)
  {
    DeltaFill(o, source, RecordedQuantity(fills, o.id), RecordedValue(fills, o.id))
  }

  /** The ledger after a cumulative snapshot was recorded. */
  ghost function RecordFill(fills: seq<FillRecord>, o: OrderRecord, source: string, maxFills: nat): seq<FillRecord> {
    if Advances(fills, o) then WithFill(fills, NextFill(fills, o, source), maxFills) else fills
  }

  /** What recording a snapshot reports: nothing to do, a refused (invalid) fill, or the fill now in the ledger. */
  datatype RecordOutcome = Unchanged | Invalid | Recorded(fill: FillRecord)

  // ---------------------------------------------------------------- quotes

  /** The stored quote of the symbol is strictly newer than the offered one. */
  predicate Outdated(quotes: map<Symbol, Quote>, quote: Quote) {
    quote.symbol in quotes && quote.timestamp < quotes[quote.symbol].timestamp
  }

  function HistoryOf(histories: map<Symbol, seq<real>>, symbol: Symbol): seq<real> {
    if symbol in histories then histories[symbol] else []
  }

  function PushPrice(history: seq<real>, price: real, size: nat): seq<real> {
    if |history| + 1 <= size then history + [price] else (history + [price])[|history| + 1 - size..]
  }

  /** The price appended to its symbol's bounded history. */
  function WithPrice(histories: map<Symbol, seq<real>>, symbol: Symbol, price: real, size: nat)
      : map<Symbol, seq<real>>
  {
    histories[symbol := PushPrice(HistoryOf(histories, symbol), price, size)]
  }

  /** The newest prices of all that were accepted. */
  function NewestPrices(all: seq<real>, size: nat): seq<real> {
    if |all| <= size then all else all[|all| - size..]
  }

  /** A bounded history that holds the newest prices goes on doing so. */
  lemma PushPriceKeepsNewest(all: seq<real>, size: nat, price: real)
    ensures PushPrice(NewestPrices(all, size), price, size) == NewestPrices(all + [price], size)
  {
  }

  lemma NewestAfterPush(history: seq<real>, size: nat, price: real)
    ensures forall all :: history == NewestPrices(all, size) ==>
              PushPrice(history, price, size) == NewestPrices(all + [price], size)
  {
    hide PushPrice, NewestPrices;
    forall all | history == NewestPrices(all, size)
      ensures PushPrice(history, price, size) == NewestPrices(all + [price], size)
    {
      PushPriceKeepsNewest(all, size, price);
    }
  }

  // ---------------------------------------------------------------- the store itself

  class StateStore {
    var orders: seq<OrderRecord>
    var fills: seq<FillRecord>
    var quotes: map<Symbol, Quote>
    var priceHistory: map<Symbol, seq<real>>
    var clientOrderIds: set<string>
    var reconciliationReady: bool
    const maxOrders: nat
    const maxFills: nat
    const historySize: nat

    constructor (historySize: nat, maxOrders: nat)
      ensures orders == [] && fills == [] && quotes == map[] && priceHistory == map[]
      ensures clientOrderIds == {} && !reconciliationReady
      ensures this.maxOrders == maxOrders && this.maxFills == 4 * historySize && this.historySize == historySize
    {
      orders, fills, quotes, priceHistory, clientOrderIds, reconciliationReady := [], [], map[], map[], {}, false;
      this.maxOrders, this.maxFills, this.historySize := maxOrders, 4 * historySize, historySize;
    }

    /** Keep the newer of the stored and the offered quote; the stored one wins only if strictly newer. */
    method UpdateQuote(quote: Quote) returns (stored: Quote)
      modifies this`quotes, this`priceHistory
      ensures quotes == old(quotes)[quote.symbol := stored]
      ensures stored == if Outdated(old(quotes), quote) then old(quotes)[quote.symbol] else quote
      ensures priceHistory == if Outdated(old(quotes), quote) then old(priceHistory)
                              else WithPrice(old(priceHistory), quote.symbol, quote.last, historySize)
      ensures !Outdated(old(quotes), quote) ==>
                forall all :: HistoryOf(old(priceHistory), quote.symbol) == NewestPrices(all, historySize) ==>
                  HistoryOf(priceHistory, quote.symbol) == NewestPrices(all + [quote.last], historySize)
    {
      if quote.symbol in quotes {
        var current := quotes[quote.symbol];
        if quote.timestamp < current.timestamp {
          assert quotes[quote.symbol := current] == quotes;
          return current;
        }
      }
      quotes := quotes[quote.symbol := quote];
      NewestAfterPush(HistoryOf(priceHistory, quote.symbol), historySize, quote.last);
      hide PushPrice, NewestPrices;
      var history := PushPrice(HistoryOf(priceHistory, quote.symbol), quote.last, historySize);
      priceHistory := priceHistory[quote.symbol := history];
      stored := quote;
    }

    method FindOrder(key: Lookup) returns (found: Option<OrderRecord>)
      ensures found == var i := Find(orders, key); if i < |orders| then Some(orders[i]) else None
    {
      var i := 0;
      while i < |orders|
        invariant 0 <= i <= |orders|
        invariant forall j :: 0 <= j < i ==> !Matches(orders[j], key)
      {
        if Matches(orders[i], key) {
          FindIsFirst(orders, key, i);
          return Some(orders[i]);
        }
        i := i + 1;
      }
      FindIsFirst(orders, key, i);
      found := None;
    }

    method UpsertOrder(o: OrderRecord)
      modifies this`orders
      ensures orders == Upsert(old(orders), o, maxOrders)
    {
      var i := 0;
      while i < |orders|
        invariant 0 <= i <= |orders| && orders == old(orders)
        invariant forall j :: 0 <= j < i ==> !Matches(orders[j], ById(o.id))
      {
        if orders[i].id == o.id {
          FindIsFirst(orders, ById(o.id), i);
          orders := orders[i := o];
          return;
        }
        i := i + 1;
      }
      FindIsFirst(orders, ById(o.id), i);
      orders := orders + [o];
      if |orders| > maxOrders {
        orders := orders[|orders| - maxOrders..];
      }
    }

    method AddFill(f: FillRecord) returns (kept: FillRecord)
      modifies this`fills
      ensures fills == WithFill(old(fills), f, maxFills)
      ensures if f.brokerFillId.Some? && HasKey(old(fills), f.brokerFillId.value)
              then kept in old(fills) && kept.brokerFillId == f.brokerFillId
              else kept == f
    {
      if f.brokerFillId.Some? {
        var i := 0;
        while i < |fills|
          invariant 0 <= i <= |fills| && fills == old(fills)
          invariant forall j :: 0 <= j < i ==> fills[j].brokerFillId != f.brokerFillId
        {
          if fills[i].brokerFillId == f.brokerFillId {
            return fills[i];
          }
          i := i + 1;
        }
      }
      fills := fills + [f];
      if |fills| > maxFills {
        fills := fills[|fills| - maxFills..];
      }
      kept := f;
    }

    /** Record only the newly filled part of a cumulative snapshot. */
    method RecordOrderFill(o: OrderRecord, source: string) returns (outcome: RecordOutcome)
      modifies this`fills
      ensures fills == RecordFill(old(fills), o, source, maxFills)
      ensures outcome.Recorded? <==> Advances(old(fills), o)
      ensures outcome.Invalid? <==> InvalidIncrement(old(fills), o)
      ensures outcome.Invalid? ==> o.averageFillPrice.Some? && o.averageFillPrice.value < 0.0
      ensures outcome.Recorded? ==>
                outcome.fill == NextFill(old(fills), o, source)
                || (outcome.fill in old(fills)
                    && outcome.fill.brokerFillId == NextFill(old(fills), o, source).brokerFillId)
    {
      if o.filledQuantity <= 0.0 || o.averageFillPrice.None? || o.averageFillPrice.value == 0.0 {
        return Unchanged;
      }
      var recordedQuantity, recordedValue := 0.0, 0.0;
      var i := 0;
      while i < |fills|
        invariant 0 <= i <= |fills| && fills == old(fills)
        invariant recordedQuantity == RecordedQuantity(fills[..i], o.id)
        invariant recordedValue == RecordedValue(fills[..i], o.id)
      {
        assert fills[..i + 1][..i] == fills[..i];
        if fills[i].orderId == Some(o.id) {
          recordedQuantity := recordedQuantity + fills[i].quantity;
          recordedValue := recordedValue + fills[i].price * fills[i].quantity;
        }
        i := i + 1;
      }
      assert fills[..i] == fills;
      if o.filledQuantity - recordedQuantity <= 0.0 {
        return Unchanged;
      }
      var fill := DeltaFill(o, source, recordedQuantity, recordedValue);
      if fill.price <= 0.0 {
        IncrementPriceSign(o, source, recordedQuantity, recordedValue);
        return Invalid;
      }
      var kept := AddFill(fill);
      outcome := Recorded(kept);
    }

    method ClaimClientOrderId(clientOrderId: string) returns (claimed: bool)
      modifies this`clientOrderIds
      ensures claimed <==> clientOrderId !in old(clientOrderIds)
      ensures clientOrderIds == old(clientOrderIds) + {clientOrderId}
    {
      claimed := clientOrderId !in clientOrderIds;
      if claimed {
        clientOrderIds := clientOrderIds + {clientOrderId};
      }
    }

    method ReleaseClientOrderId(clientOrderId: string)
      modifies this`clientOrderIds
      ensures clientOrderIds == old(clientOrderIds) - {clientOrderId}
    {
      clientOrderIds := clientOrderIds - {clientOrderId};
    }

    method SetReconciliationReady(ready: bool)
      modifies this`reconciliationReady
      ensures reconciliationReady == ready
    {
      reconciliationReady := ready;
    }
  }
}
