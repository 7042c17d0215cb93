/**
  Broker reconciliation: one pass merges the broker's order snapshot into the local table, records
  the newly seen fills, marks open orders that the broker no longer lists, and sets the readiness
  flag. An order is settled when another pass over the same snapshot would leave it alone.
 */
module Reconcile {
  import opened Domain
  import opened Store

  datatype Limits = Limits(maxOrders: nat, maxFills: nat)

  /** The table and ledger, with the report's counters. */
  datatype Progress = Progress(orders: seq<OrderRecord>, fills: seq<FillRecord>, inserted: nat, updated: nat,
                               recorded: nat)

  const SOURCE := "reconciled"
  const MISSING_MESSAGE := Some("open local order not present in broker order snapshot")

  /** The local order for a remote one: by broker id first, then by client id; the table's length if there is none. */
  function Match(orders: seq<OrderRecord>, remote: OrderRecord): nat {
    if Present(remote.brokerOrderId) && Find(orders, ByBroker(remote.brokerOrderId.value)) < |orders|
    then Find(orders, ByBroker(remote.brokerOrderId.value))
    else if Present(remote.clientOrderId) then Find(orders, ByClient(remote.clientOrderId.value))
    else |orders|
  }

  /** The broker's view of an order under its local identity and terms. */
  function Merge(local: OrderRecord, remote: OrderRecord): OrderRecord {
    remote.(id := local.id,
            clientOrderId := OrElse(local.clientOrderId, remote.clientOrderId),
            symbol := local.symbol,
            side := local.side,
            quantity := local.quantity,
            orderType := local.orderType,
            price := local.price,
            stopLoss := local.stopLoss,
            takeProfit := local.takeProfit,
            source := local.source,
            createdAt := local.createdAt,
            correlationId := OrElse(local.correlationId, remote.correlationId))
  }

  /** The order that a remote one turns into: itself when it is new, the merged one otherwise. */
  function Target(orders: seq<OrderRecord>, remote: OrderRecord): OrderRecord {
    var i := Match(orders, remote);
    if i < |orders| then Merge(orders[i], remote) else remote
  }

  /** One remote order. */
  ghost function Absorb(lim: Limits, p: Progress, remote: OrderRecord): Progress {
    var i := Match(p.orders, remote);
    var target := Target(p.orders, remote);
    var changed := i == |p.orders| || target != p.orders[i];
    Progress(
      if changed then Upsert(p.orders, target, lim.maxOrders) else p.orders,
      RecordFill(p.fills, target, SOURCE, lim.maxFills),
      p.inserted + (if i == |p.orders| then 1 else 0),
      p.updated + (if i < |p.orders| && changed then 1 else 0),
      p.recorded + (if Advances(p.fills, target) then 1 else 0))
  }

  ghost function AbsorbAll(lim: Limits, p: Progress, remotes: seq<OrderRecord>): Progress
    decreases |remotes|
  {
    if |remotes| == 0 then p else AbsorbAll(lim, Absorb(lim, p, remotes[0]), remotes[1..])
  }

  predicate OpenStatus(status: OrderStatus) {
    status.Pending? || status.Accepted? || status.PartiallyFilled? || status.NeedsReconciliation?
  }

  /** An open local order with a broker id that the snapshot does not list. */
  predicate Missing(o: OrderRecord, remoteIds: set<string>) {
    OpenStatus(o.status) && Present(o.brokerOrderId) && o.brokerOrderId.value !in remoteIds
  }

  function Mark(o: OrderRecord, remoteIds: set<string>): OrderRecord {
    if Missing(o, remoteIds) then o.(status := NeedsReconciliation, message := MISSING_MESSAGE) else o
  }

  function MarkAll(orders: seq<OrderRecord>, remoteIds: set<string>): seq<OrderRecord> {
    seq(|orders|, i requires 0 <= i < |orders| => Mark(orders[i], remoteIds))
  }

  function RemoteIds(remotes: seq<OrderRecord>): set<string> {
    set i | 0 <= i < |remotes| && Present(remotes[i].brokerOrderId) :: remotes[i].brokerOrderId.value
  }

  /** A whole pass. */
  ghost function Pass(lim: Limits, orders: seq<OrderRecord>, fills: seq<FillRecord>,
                      remotes: seq<OrderRecord>): Progress {
    var p := AbsorbAll(lim, Progress(orders, fills, 0, 0, 0), remotes);
    p.(orders := MarkAll(p.orders, RemoteIds(remotes)))
  }

  ghost predicate NoneUnresolved(orders: seq<OrderRecord>) {
    forall o :: o in orders ==> !o.status.NeedsReconciliation?
  }

  // ---------------------------------------------------------------- merging

  /** Merging never touches what identifies an order locally or what was ordered. */
  lemma MergeKeepsTerms(local: OrderRecord, remote: OrderRecord)
    ensures var m := Merge(local, remote);
            && m.id == local.id && m.symbol == local.symbol && m.side == local.side && m.quantity == local.quantity
            && m.orderType == local.orderType && m.price == local.price && m.createdAt == local.createdAt
            && m.stopLoss == local.stopLoss && m.takeProfit == local.takeProfit && m.source == local.source
            && m.message == remote.message && m.updatedAt == remote.updatedAt
            && m.status == remote.status && m.filledQuantity == remote.filledQuantity
            && m.averageFillPrice == remote.averageFillPrice && m.brokerOrderId == remote.brokerOrderId
            && m.clientOrderId == (if Present(local.clientOrderId) then local.clientOrderId else remote.clientOrderId)
            && m.correlationId == (if Present(local.correlationId) then local.correlationId else remote.correlationId)
            && Merge(m, remote) == m
  {
  }

  // ---------------------------------------------------------------- settled orders

  /** The table already holds what the remote order would be merged into, and the ledger all of its fills. */
  ghost predicate Settled(p: Progress, remote: OrderRecord)
    requires remote.brokerOrderId.Some?
  {
    var i := Find(p.orders, ByBroker(remote.brokerOrderId.value));
    && i < |p.orders|
    && Merge(p.orders[i], remote) == p.orders[i]
    && !Advances(p.fills, p.orders[i])
  }

  lemma SettledAbsorbIsIdle(lim: Limits, p: Progress, remote: OrderRecord)
    requires Present(remote.brokerOrderId) && Settled(p, remote)
    ensures Absorb(lim, p, remote) == p
  {
  }

  /** Listed orders carry distinct broker ids and no client ids, and have fresh local ids. */
  ghost predicate Snapshot(remotes: seq<OrderRecord>) {
    && (forall i :: 0 <= i < |remotes| ==> Present(remotes[i].brokerOrderId) && !Present(remotes[i].clientOrderId))
    && (forall i, j :: 0 <= i < j < |remotes| ==>
          remotes[i].brokerOrderId != remotes[j].brokerOrderId && remotes[i].id != remotes[j].id)
  }

  /** A remote order that is new to the table comes with a new id. */
  ghost predicate FreshIfNew(orders: seq<OrderRecord>, remote: OrderRecord) {
    Match(orders, remote) == |orders| ==> forall o :: o in orders ==> o.id != remote.id
  }

  /**
    The ledger's entries under the remote order's reference belong to its order and do not reach
    beyond what is recorded.
   */
  ghost predicate KeysOwned(p: Progress, remote: OrderRecord) {
    OwnedBy(p.fills, KeyRef(remote), Target(p.orders, remote).id)
  }

  /** The ledger's entries under a reference belong to one order and do not reach beyond what is recorded for it. */
  ghost predicate OwnedBy(fills: seq<FillRecord>, reference: FillRef, id: OrderId) {
    forall k :: 0 <= k < |fills| && fills[k].brokerFillId.Some? && fills[k].brokerFillId.value.reference == reference
      ==> Of(fills[k], id) && fills[k].brokerFillId.value.cumulative <= RecordedQuantity(fills, id)
  }

  lemma OwnedStays(fills: seq<FillRecord>, f: FillRecord, reference: FillRef, id: OrderId)
    requires OwnedBy(fills, reference, id) && RecordedQuantity(fills + [f], id) == RecordedQuantity(fills, id)
    requires f.brokerFillId.Some? && f.brokerFillId.value.reference != reference
    ensures OwnedBy(fills + [f], reference, id)
  {
    hide RecordedQuantity;
  }

  ghost predicate Absorbable(p: Progress, remote: OrderRecord) {
    FreshIfNew(p.orders, remote) && KeysOwned(p, remote)
  }

  lemma TargetFacts(orders: seq<OrderRecord>, remote: OrderRecord)
    requires Present(remote.brokerOrderId) && !Present(remote.clientOrderId)
    ensures var target := Target(orders, remote);
            && target.brokerOrderId == remote.brokerOrderId && KeyRef(target) == KeyRef(remote)
            && target.filledQuantity == remote.filledQuantity
            && Merge(target, remote) == target
            && (Match(orders, remote) < |orders| ==> target.id == orders[Match(orders, remote)].id)
            && Match(orders, remote) == Find(orders, ByBroker(remote.brokerOrderId.value))
  {
  }

  /** The ledger would gain from this snapshot, but its key is taken. */
  ghost predicate KeyTaken(fills: seq<FillRecord>, o: OrderRecord) {
    Advances(fills, o) && HasKey(fills, FillKey(SOURCE, KeyRef(o), o.filledQuantity))
  }

  /** After a recording the snapshot no longer advances the ledger, exactly when its key was not taken. */
  lemma RecordingSettlesIff(fills: seq<FillRecord>, o: OrderRecord, maxFills: nat)
    requires |RecordFill(fills, o, SOURCE, maxFills)| < maxFills
    ensures !Advances(RecordFill(fills, o, SOURCE, maxFills), o) <==> !KeyTaken(fills, o)
  {
    if Advances(fills, o) && !KeyTaken(fills, o) {
      var f := NextFill(fills, o, SOURCE);
      RecordedAppend(fills, f, o.id);
      assert f.quantity == o.filledQuantity - RecordedQuantity(fills, o.id);
      hide DeltaFill;
      assert RecordFill(fills, o, SOURCE, maxFills) == fills + [f];
    }
  }

  lemma AbsorbableKeyUnused(p: Progress, remote: OrderRecord)
    requires Present(remote.brokerOrderId) && !Present(remote.clientOrderId) && Absorbable(p, remote)
    ensures !KeyTaken(p.fills, Target(p.orders, remote))
  {
    TargetFacts(p.orders, remote);
    hide DeltaFill, Target;
  }

  /** Where an absorbed order ends up. */
  lemma AbsorbedOrders(lim: Limits, p: Progress, remote: OrderRecord)
    requires Present(remote.brokerOrderId) && !Present(remote.clientOrderId) && FreshIfNew(p.orders, remote)
    requires DistinctIds(p.orders) && |p.orders| < lim.maxOrders
    ensures var i, target, after := Match(p.orders, remote), Target(p.orders, remote), Absorb(lim, p, remote).orders;
            && i <= |p.orders|
            && (i < |p.orders| ==> after == p.orders[i := target])
            && (i == |p.orders| ==> after == p.orders + [target])
            && DistinctIds(after)
  {
    var i, target := Match(p.orders, remote), Target(p.orders, remote);
    TargetFacts(p.orders, remote);
    if i < |p.orders| {
      FindIsFirst(p.orders, ById(target.id), i);
      assert p.orders[i := p.orders[i]] == p.orders;
    } else {
      FindIsFirst(p.orders, ById(target.id), |p.orders|);
    }
    hide Merge, RecordFill, Advances;
  }

  /** An absorbed order is settled exactly when its ledger key was not taken by someone else. */
  lemma AbsorbSettlesIff(lim: Limits, p: Progress, remote: OrderRecord)
    requires Present(remote.brokerOrderId) && !Present(remote.clientOrderId) && FreshIfNew(p.orders, remote)
    requires DistinctIds(p.orders) && |p.orders| < lim.maxOrders
    requires |Absorb(lim, p, remote).fills| < lim.maxFills
    ensures Settled(Absorb(lim, p, remote), remote) <==> !KeyTaken(p.fills, Target(p.orders, remote))
  {
    var i, target, after := Match(p.orders, remote), Target(p.orders, remote), Absorb(lim, p, remote);
    TargetFacts(p.orders, remote);
    AbsorbedOrders(lim, p, remote);
    RecordingSettlesIff(p.fills, target, lim.maxFills);
    FindIsFirst(after.orders, ByBroker(remote.brokerOrderId.value), i);
    hide Merge, RecordFill, Advances, Upsert, KeyTaken;
  }

  // ---------------------------------------------------------------- different broker ids do not interfere

  /** Absorbing one order leaves the order with another broker id where it was. */
  lemma OtherOrderStays(lim: Limits, p: Progress, remote: OrderRecord, other: string)
    requires Present(remote.brokerOrderId) && !Present(remote.clientOrderId) && Absorbable(p, remote)
    requires DistinctIds(p.orders) && |p.orders| < lim.maxOrders
    requires remote.brokerOrderId.value != other
    ensures var before, after := p.orders, Absorb(lim, p, remote).orders;
            var j := Find(before, ByBroker(other));
            if j < |before|
            then && Find(after, ByBroker(other)) == j && after[j] == before[j]
                 && before[j].id != Target(p.orders, remote).id
            else Find(after, ByBroker(other)) == |after|
  {
    var before, after := p.orders, Absorb(lim, p, remote).orders;
    var j := Find(before, ByBroker(other));
    AbsorbedOrders(lim, p, remote);
    TargetFacts(p.orders, remote);
    hide Target, Merge, Absorb;
    if j < |before| {
      FindIsFirst(after, ByBroker(other), j);
    } else {
      FindIsFirst(after, ByBroker(other), |after|);
    }
  }

  /** Absorbing one order adds at most one ledger entry, under that order's own key and id. */
  lemma OtherFillsStay(lim: Limits, p: Progress, remote: OrderRecord, id: OrderId)
    requires Present(remote.brokerOrderId) && !Present(remote.clientOrderId)
    requires |Absorb(lim, p, remote).fills| < lim.maxFills && id != Target(p.orders, remote).id
    ensures |p.fills| < lim.maxFills
    ensures var after := Absorb(lim, p, remote).fills;
            && RecordedQuantity(after, id) == RecordedQuantity(p.fills, id)
            && RecordedValue(after, id) == RecordedValue(p.fills, id)
            && (after == p.fills
                || exists f: FillRecord :: after == p.fills + [f] && f.brokerFillId.Some?
                                           && f.brokerFillId.value.reference == KeyRef(remote))
  {
    var target := Target(p.orders, remote);
    TargetFacts(p.orders, remote);
    if Advances(p.fills, target) {
      var f := NextFill(p.fills, target, SOURCE);
      assert f.orderId == Some(target.id);
      assert f.brokerFillId == Some(FillKey(SOURCE, KeyRef(target), target.filledQuantity));
      RecordedAppend(p.fills, f, id);
      hide NextFill, Target;
    }
  }

  lemma OtherStaysSettled(lim: Limits, p: Progress, remote: OrderRecord, other: OrderRecord)
    requires Present(remote.brokerOrderId) && !Present(remote.clientOrderId) && Absorbable(p, remote)
    requires DistinctIds(p.orders) && |p.orders| < lim.maxOrders
    requires |Absorb(lim, p, remote).fills| < lim.maxFills
    requires other.brokerOrderId.Some? && other.brokerOrderId != remote.brokerOrderId
    requires Settled(p, other)
    ensures Settled(Absorb(lim, p, remote), other)
  {
    var j := Find(p.orders, ByBroker(other.brokerOrderId.value));
    OtherOrderStays(lim, p, remote, other.brokerOrderId.value);
    OtherFillsStay(lim, p, remote, p.orders[j].id);
    hide Absorb, Target, Merge, RecordedQuantity, RecordedValue, DeltaFill;
  }

  /** Orders with different broker ids end up under different local ids. */
  lemma TargetsDiffer(p: Progress, remote: OrderRecord, other: OrderRecord)
    requires Present(remote.brokerOrderId) && !Present(remote.clientOrderId) && Absorbable(p, remote)
    requires Present(other.brokerOrderId) && !Present(other.clientOrderId) && Absorbable(p, other)
    requires other.brokerOrderId != remote.brokerOrderId && other.id != remote.id && DistinctIds(p.orders)
    ensures Target(p.orders, other).id != Target(p.orders, remote).id
  {
    TargetFacts(p.orders, remote);
    TargetFacts(p.orders, other);
    var i, j := Match(p.orders, remote), Match(p.orders, other);
    if i < |p.orders| {
      assert p.orders[i] in p.orders;
    }
    if j < |p.orders| {
      assert p.orders[j] in p.orders;
    }
    hide Merge, Find;
  }

  /** The local id that a remote order maps to is not changed by absorbing another one. */
  lemma OtherTargetStays(lim: Limits, p: Progress, remote: OrderRecord, other: OrderRecord)
    requires Present(remote.brokerOrderId) && !Present(remote.clientOrderId) && Absorbable(p, remote)
    requires DistinctIds(p.orders) && |p.orders| < lim.maxOrders
    requires Present(other.brokerOrderId) && !Present(other.clientOrderId) && Absorbable(p, other)
    requires other.brokerOrderId != remote.brokerOrderId && other.id != remote.id
    ensures var after := Absorb(lim, p, remote).orders;
            && Target(after, other).id == Target(p.orders, other).id
            && (Match(after, other) == |after| ==> forall o :: o in after ==> o.id != other.id)
  {
    var after := Absorb(lim, p, remote).orders;
    TargetFacts(p.orders, other);
    TargetFacts(after, other);
    TargetsDiffer(p, remote, other);
    OtherOrderStays(lim, p, remote, other.brokerOrderId.value);
    AbsorbedOrders(lim, p, remote);
    hide Absorb, Merge, Find;
  }

  lemma OtherStaysAbsorbable(lim: Limits, p: Progress, remote: OrderRecord, other: OrderRecord)
    requires Present(remote.brokerOrderId) && !Present(remote.clientOrderId) && Absorbable(p, remote)
    requires DistinctIds(p.orders) && |p.orders| < lim.maxOrders
    requires |Absorb(lim, p, remote).fills| < lim.maxFills
    requires Present(other.brokerOrderId) && !Present(other.clientOrderId)
    requires other.brokerOrderId != remote.brokerOrderId && other.id != remote.id
    requires Absorbable(p, other)
    ensures Absorbable(Absorb(lim, p, remote), other)
  {
    TargetsDiffer(p, remote, other);
    OtherTargetStays(lim, p, remote, other);
    var id, fills := Target(p.orders, other).id, Absorb(lim, p, remote).fills;
    OtherFillsStay(lim, p, remote, id);
    assert KeyRef(other) != KeyRef(remote);
    hide Absorb, Target, Match, RecordedQuantity, RecordedValue, KeyRef, OwnedBy;
    if fills != p.fills {
      var f: FillRecord :| fills == p.fills + [f] && f.brokerFillId.Some?
                           && f.brokerFillId.value.reference == KeyRef(remote);
      OwnedStays(p.fills, f, KeyRef(other), id);
    }
  }

  // ---------------------------------------------------------------- a whole pass settles everything

  lemma {:induction false} LedgerRoom(lim: Limits, p: Progress, remotes: seq<OrderRecord>)
    requires |AbsorbAll(lim, p, remotes).fills| < lim.maxFills
    ensures |p.fills| < lim.maxFills
    decreases |remotes|
  {
    if |remotes| > 0 {
      LedgerRoom(lim, Absorb(lim, p, remotes[0]), remotes[1..]);
    }
  }

  /** The remaining snapshot can be absorbed into this state. */
  ghost predicate CanAbsorb(lim: Limits, p: Progress, remotes: seq<OrderRecord>) {
    && DistinctIds(p.orders) && Snapshot(remotes) && |p.orders| + |remotes| <= lim.maxOrders
    && forall i :: 0 <= i < |remotes| ==> Absorbable(p, remotes[i])
  }

  lemma CanAbsorbRest(lim: Limits, p: Progress, remotes: seq<OrderRecord>)
    requires |remotes| > 0 && CanAbsorb(lim, p, remotes)
    requires |Absorb(lim, p, remotes[0]).fills| < lim.maxFills
    ensures CanAbsorb(lim, Absorb(lim, p, remotes[0]), remotes[1..])
  {
    var after, rest := Absorb(lim, p, remotes[0]), remotes[1..];
    AbsorbedOrders(lim, p, remotes[0]);
    hide Absorb, Target, Match, Absorbable;
    forall i | 0 <= i < |rest|
      ensures Absorbable(after, rest[i])
    {
      OtherStaysAbsorbable(lim, p, remotes[0], remotes[i + 1]);
    }
  }

  ghost predicate AllSettled(p: Progress, remotes: seq<OrderRecord>) {
    forall i :: 0 <= i < |remotes| ==> remotes[i].brokerOrderId.Some? && Settled(p, remotes[i])
  }

  /** Absorbing the next order settles it and unsettles nothing with other broker ids. */
  lemma SettleNext(lim: Limits, p: Progress, done: seq<OrderRecord>, remotes: seq<OrderRecord>)
    requires |remotes| > 0 && CanAbsorb(lim, p, remotes) && |Absorb(lim, p, remotes[0]).fills| < lim.maxFills
    requires Snapshot(done + remotes) && AllSettled(p, done)
    ensures AllSettled(Absorb(lim, p, remotes[0]), done + [remotes[0]])
  {
    var first, after := remotes[0], Absorb(lim, p, remotes[0]);
    AbsorbableKeyUnused(p, first);
    AbsorbSettlesIff(lim, p, first);
    hide Absorb, Settled, Absorbable, KeyTaken, DistinctIds;
    forall i | 0 <= i < |done|
      ensures Settled(after, done[i])
    {
      assert (done + remotes)[i] == done[i] && (done + remotes)[|done|] == first;
      OtherStaysSettled(lim, p, first, done[i]);
    }
  }

  /** Absorbing a snapshot settles all of it and unsettles nothing with other broker ids. */
  lemma {:induction false} AbsorbAllSettles(lim: Limits, p: Progress, done: seq<OrderRecord>, remotes: seq<OrderRecord>)
    requires CanAbsorb(lim, p, remotes) && |AbsorbAll(lim, p, remotes).fills| < lim.maxFills
    requires Snapshot(done + remotes) && AllSettled(p, done)
    ensures AllSettled(AbsorbAll(lim, p, remotes), done + remotes)
    ensures DistinctIds(AbsorbAll(lim, p, remotes).orders)
    decreases |remotes|
  {
    hide Absorb, Settled, Absorbable, DistinctIds, Snapshot;
    if |remotes| == 0 {
      assert done + remotes == done;
    } else {
      hide CanAbsorb, AllSettled;
      var first, rest := remotes[0], remotes[1..];
      var after := Absorb(lim, p, first);
      assert AbsorbAll(lim, p, remotes) == AbsorbAll(lim, after, rest);
      LedgerRoom(lim, after, rest);
      CanAbsorbRest(lim, p, remotes);
      SettleNext(lim, p, done, remotes);
      assert (done + [first]) + rest == done + remotes;
      AbsorbAllSettles(lim, after, done + [first], rest);
    }
  }

  lemma {:induction false} SettledPassIsIdle(lim: Limits, p: Progress, remotes: seq<OrderRecord>)
    requires Snapshot(remotes) && AllSettled(p, remotes)
    ensures AbsorbAll(lim, p, remotes) == p
    decreases |remotes|
  {
    if |remotes| > 0 {
      SettledAbsorbIsIdle(lim, p, remotes[0]);
      SettledPassIsIdle(lim, p, remotes[1..]);
    }
  }

  // ---------------------------------------------------------------- marking

  /** The order still lives at the broker as far as the local table knows. */
  predicate Live(status: OrderStatus) {
    status.Pending? || status.Accepted? || status.PartiallyFilled?
  }

  /** The order carries a broker id that no listed order has. */
  ghost predicate Unlisted(o: OrderRecord, remotes: seq<OrderRecord>) {
    && o.brokerOrderId.Some? && o.brokerOrderId.value != ""
    && forall i :: 0 <= i < |remotes| ==> remotes[i].brokerOrderId != o.brokerOrderId
  }

  /**
    Marking in words: a pending, accepted, partly filled or unresolved order with a broker id that is not
    listed becomes unresolved, and every other order is left alone.
   */
  ghost predicate MarkedOrSame(before: OrderRecord, after: OrderRecord, remoteIds: set<string>) {
    if && (before.status.Pending? || before.status.Accepted? || before.status.PartiallyFilled?
           || before.status.NeedsReconciliation?)
       && before.brokerOrderId.Some? && before.brokerOrderId.value != "" && before.brokerOrderId.value !in remoteIds
    then after == before.(status := NeedsReconciliation,
                          message := Some("open local order not present in broker order snapshot"))
    else after == before
  }

  lemma MarkIs(o: OrderRecord, remoteIds: set<string>)
    ensures MarkedOrSame(o, Mark(o, remoteIds), remoteIds)
  {
  }

  /** After marking, an order that the broker does not list is filled, cancelled, rejected or unresolved. */
  lemma NoneLiveUnlisted(orders: seq<OrderRecord>, remotes: seq<OrderRecord>)
    ensures forall o :: o in MarkAll(orders, RemoteIds(remotes)) && Unlisted(o, remotes) ==>
              o.status.Filled? || o.status.Cancelled? || o.status.Rejected? || o.status.NeedsReconciliation?
  {
    var ids := RemoteIds(remotes);
    forall i | 0 <= i < |orders| && Unlisted(MarkAll(orders, ids)[i], remotes)
      ensures !Live(MarkAll(orders, ids)[i].status)
    {
      MarkIs(orders[i], ids);
      assert MarkAll(orders, ids)[i].brokerOrderId == orders[i].brokerOrderId;
    }
  }

  /**
    The report's counters in words: inserted if nothing local carries its ids, updated if its merged
    record differs.
   */
  lemma CountedIff(lim: Limits, p: Progress, remote: OrderRecord)
    requires Present(remote.brokerOrderId) && !Present(remote.clientOrderId)
    ensures var after := Absorb(lim, p, remote);
            var known := exists o :: o in p.orders && o.brokerOrderId == remote.brokerOrderId;
            && after.inserted == p.inserted + (if known then 0 else 1)
            && after.updated == p.updated + (if known && after.orders != p.orders then 1 else 0)
            && (!known && lim.maxOrders > 0 ==> remote in after.orders)
  {
    var i := Find(p.orders, ByBroker(remote.brokerOrderId.value));
    TargetFacts(p.orders, remote);
    if i < |p.orders| {
      assert p.orders[i] in p.orders;
      KnownChanges(lim, p, remote);
    } else {
      assert forall o :: o in p.orders ==> !Matches(o, ByBroker(remote.brokerOrderId.value));
      if lim.maxOrders > 0 {
        UpsertStores(p.orders, remote, lim.maxOrders);
      }
    }
    hide Upsert, RecordFill, Advances, Merge, Find;
  }

  /** Storing the merged record of a known order changes the table exactly when it differs from what was there. */
  lemma KnownChanges(lim: Limits, p: Progress, remote: OrderRecord)
    requires Match(p.orders, remote) < |p.orders|
    ensures var i := Match(p.orders, remote);
            Target(p.orders, remote) != p.orders[i] ==>
              Upsert(p.orders, Target(p.orders, remote), lim.maxOrders) != p.orders
  {
    var i, target := Match(p.orders, remote), Target(p.orders, remote);
    var j := Find(p.orders, ById(target.id));
    assert p.orders[i].id == target.id;
    hide Match, Merge;
  }

  lemma MarkIdempotent(orders: seq<OrderRecord>, remoteIds: set<string>)
    ensures MarkAll(MarkAll(orders, remoteIds), remoteIds) == MarkAll(orders, remoteIds)
    ensures DistinctIds(orders) ==> DistinctIds(MarkAll(orders, remoteIds))
  {
  }

  /** Marking leaves every listed order, and every lookup by broker id, as they were. */
  lemma MarkKeepsSettled(p: Progress, remoteIds: set<string>, remote: OrderRecord)
    requires Present(remote.brokerOrderId) && remote.brokerOrderId.value in remoteIds && Settled(p, remote)
    ensures Settled(p.(orders := MarkAll(p.orders, remoteIds)), remote)
  {
    var i := Find(p.orders, ByBroker(remote.brokerOrderId.value));
    var marked := MarkAll(p.orders, remoteIds);
    assert marked[i] == p.orders[i];
    assert forall j :: 0 <= j < |marked| ==> marked[j].brokerOrderId == p.orders[j].brokerOrderId;
    hide MarkAll, Merge, Advances;
    FindIsFirst(marked, ByBroker(remote.brokerOrderId.value), i);
  }

  /** Marking leaves everything listed settled. */
  lemma MarkKeepsAllSettled(p: Progress, remotes: seq<OrderRecord>)
    requires Snapshot(remotes) && AllSettled(p, remotes)
    ensures AllSettled(p.(orders := MarkAll(p.orders, RemoteIds(remotes))), remotes)
  {
    hide MarkAll, RemoteIds, Settled;
    forall i | 0 <= i < |remotes|
      ensures Settled(p.(orders := MarkAll(p.orders, RemoteIds(remotes))), remotes[i])
    {
      ListedId(remotes, i);
      MarkKeepsSettled(p, RemoteIds(remotes), remotes[i]);
    }
  }

  lemma ListedId(remotes: seq<OrderRecord>, i: nat)
    requires i < |remotes| && Present(remotes[i].brokerOrderId)
    ensures remotes[i].brokerOrderId.value in RemoteIds(remotes)
  {
  }

  // ---------------------------------------------------------------- the service

  datatype Report = Report(
    examined: nat,
    inserted: nat,
    updated: nat,
    recorded: nat,
    markedUnknown: nat,
    unresolved: seq<OrderId>)

  /** The ids of the open orders that the snapshot does not list, newest first. */
  function MissingIds(orders: seq<OrderRecord>, remoteIds: set<string>): seq<OrderId> {
    if |orders| == 0 then []
    else MissingIds(orders[1..], remoteIds) + if Missing(orders[0], remoteIds) then [orders[0].id] else []
  }

  /** An id is listed as unresolved exactly when an order with that id is missing. */
  lemma {:induction false} MissingIdsMembers(orders: seq<OrderRecord>, remoteIds: set<string>, id: OrderId)
    ensures id in MissingIds(orders, remoteIds) <==> exists o :: o in orders && o.id == id && Missing(o, remoteIds)
  {
    if |orders| > 0 {
      MissingIdsMembers(orders[1..], remoteIds, id);
      assert orders == [orders[0]] + orders[1..];
    }
  }

  lemma AbsorbDistinct(lim: Limits, p: Progress, remote: OrderRecord)
    requires DistinctIds(p.orders)
    ensures DistinctIds(Absorb(lim, p, remote).orders)
  {
    UpsertMembers(p.orders, Target(p.orders, remote), lim.maxOrders);
    hide Upsert, Target;
  }

  lemma {:induction false} AbsorbAllAppend(lim: Limits, p: Progress, remotes: seq<OrderRecord>, remote: OrderRecord)
    ensures AbsorbAll(lim, p, remotes + [remote]) == Absorb(lim, AbsorbAll(lim, p, remotes), remote)
    decreases |remotes|
  {
    hide Absorb;
    if |remotes| == 0 {
      assert AbsorbAll(lim, Absorb(lim, p, remote), []) == Absorb(lim, p, remote);
      assert ([] + [remote])[1..] == [];
    } else {
      AbsorbAllAppend(lim, Absorb(lim, p, remotes[0]), remotes[1..], remote);
      assert (remotes + [remote])[1..] == remotes[1..] + [remote];
    }
  }

  /** The local order that a remote one belongs to. */
  method MatchOrder(store: StateStore, remote: OrderRecord) returns (local: Option<OrderRecord>)
    ensures local == var i := Match(store.orders, remote); if i < |store.orders| then Some(store.orders[i]) else None
    ensures local.Some? ==>
              || (Present(remote.brokerOrderId) && local.value.brokerOrderId == remote.brokerOrderId)
              || (Present(remote.clientOrderId) && local.value.clientOrderId == remote.clientOrderId)
    ensures local.None? ==>
              forall o :: o in store.orders ==>
                && (Present(remote.brokerOrderId) ==> o.brokerOrderId != remote.brokerOrderId)
                && (Present(remote.clientOrderId) ==> o.clientOrderId != remote.clientOrderId)
  {
    local := None;
    if Present(remote.brokerOrderId) {
      local := store.FindOrder(ByBroker(remote.brokerOrderId.value));
    }
    if local.None? && Present(remote.clientOrderId) {
      local := store.FindOrder(ByClient(remote.clientOrderId.value));
    }
  }

  predicate NegativelyPriced(o: OrderRecord) {
    o.averageFillPrice.Some? && o.averageFillPrice.value < 0.0
  }

  /**
    One remote order and the report's counters; false means that its fill was refused as invalid and
    the pass stops there.
   */
  method AbsorbRemote(store: StateStore, remote: OrderRecord, inserted: nat, updated: nat, recorded: nat)
      returns (ok: bool, inserted': nat, updated': nat, recorded': nat)
    modifies store`orders, store`fills
    ensures !ok ==> NegativelyPriced(remote)
    ensures Progress(store.orders, store.fills, inserted', updated', recorded')
            == Absorb(Limits(store.maxOrders, store.maxFills),
                      Progress(old(store.orders), old(store.fills), inserted, updated, recorded), remote)
  {
    inserted', updated', recorded' := inserted, updated, recorded;
    var local := MatchOrder(store, remote);
    ghost var before := Progress(store.orders, store.fills, inserted, updated, recorded);
    hide Match, Find, Upsert, RecordFill, Advances, Merge, NextFill;
    var target := remote;
    if local.None? {
      store.UpsertOrder(remote);
      inserted' := inserted + 1;
    } else {
      target := Merge(local.value, remote);
      if target != local.value {
        store.UpsertOrder(target);
        updated' := updated + 1;
      }
    }
    assert target == Target(before.orders, remote);
    MergeKeepsPrice(before.orders, remote);
    var outcome := store.RecordOrderFill(target, SOURCE);
    ok := !outcome.Invalid?;
    if outcome.Recorded? {
      recorded' := recorded + 1;
    }
  }

  lemma MergeKeepsPrice(orders: seq<OrderRecord>, remote: OrderRecord)
    ensures Target(orders, remote).averageFillPrice == remote.averageFillPrice
  {
  }

  /** The second loop: mark the open orders that the broker does not list. */
  method MarkMissing(store: StateStore, remoteIds: set<string>) returns (marked: nat, unresolved: seq<OrderId>)
    requires DistinctIds(store.orders)
    modifies store`orders
    ensures store.orders == MarkAll(old(store.orders), remoteIds) && DistinctIds(store.orders)
    ensures |store.orders| == |old(store.orders)|
    ensures forall i :: 0 <= i < |store.orders| ==> MarkedOrSame(old(store.orders)[i], store.orders[i], remoteIds)
    ensures unresolved == MissingIds(old(store.orders), remoteIds) && marked == |unresolved|
  {
    MarkIdempotent(store.orders, remoteIds);
    var listed := store.orders;
    marked, unresolved := 0, [];
    var n := |listed|;
    while n > 0
      invariant 0 <= n <= |listed| == |store.orders|
      invariant forall j :: 0 <= j < |listed| ==>
                  store.orders[j] == if j < n then listed[j] else Mark(listed[j], remoteIds)
      invariant unresolved == MissingIds(listed[n..], remoteIds) && marked == |unresolved|
    {
      n := n - 1;
      var local := listed[n];
      assert listed[n..][1..] == listed[n + 1..];
      if OpenStatus(local.status) && Present(local.brokerOrderId) && local.brokerOrderId.value !in remoteIds {
        UpsertAt(store.orders, n, Mark(local, remoteIds), store.maxOrders);
        store.UpsertOrder(local.(status := NeedsReconciliation, message := MISSING_MESSAGE));
        marked, unresolved := marked + 1, unresolved + [local.id];
      }
    }
    assert listed[0..] == listed;
    forall i | 0 <= i < |listed|
      ensures MarkedOrSame(listed[i], store.orders[i], remoteIds)
    {
      MarkIs(listed[i], remoteIds);
    }
  }

  /** The first loop; it stops behind a remote order whose fill is refused. */
  method AbsorbRemotes(store: StateStore, remotes: seq<OrderRecord>)
      returns (done: bool, n: nat, inserted: nat, updated: nat, recorded: nat)
    requires DistinctIds(store.orders)
    modifies store`orders, store`fills
    ensures DistinctIds(store.orders) && n <= |remotes|
    ensures Progress(store.orders, store.fills, inserted, updated, recorded)
            == AbsorbAll(Limits(store.maxOrders, store.maxFills),
                         Progress(old(store.orders), old(store.fills), 0, 0, 0), remotes[..n])
    ensures done ==> n == |remotes|
    ensures !done ==> n > 0 && NegativelyPriced(remotes[n - 1])
  {
    ghost var lim := Limits(store.maxOrders, store.maxFills);
    ghost var start := Progress(store.orders, store.fills, 0, 0, 0);
    inserted, updated, recorded, n := 0, 0, 0, 0;
    done := true;
    assert Reached(lim, start, remotes, 0, start);
    hide Reached, NegativelyPriced;
    while done && n < |remotes|
      invariant 0 <= n <= |remotes|
      invariant Reached(lim, start, remotes, n, Progress(store.orders, store.fills, inserted, updated, recorded))
      invariant !done ==> n > 0 && NegativelyPriced(remotes[n - 1])
      decreases done, |remotes| - n
    {
      done, inserted, updated, recorded := AbsorbNext(store, start, remotes, n, inserted, updated, recorded);
      n := n + 1;
    }
    ReachedMeans(lim, start, remotes, n, Progress(store.orders, store.fills, inserted, updated, recorded));
  }

  /** The body of the loop. */
  method AbsorbNext(store: StateStore, ghost start: Progress, remotes: seq<OrderRecord>, n: nat, inserted: nat,
                    updated: nat, recorded: nat)
      returns (ok: bool, inserted': nat, updated': nat, recorded': nat)
    requires n < |remotes|
    requires Reached(Limits(store.maxOrders, store.maxFills), start, remotes, n,
                     Progress(store.orders, store.fills, inserted, updated, recorded))
    modifies store`orders, store`fills
    ensures !ok ==> NegativelyPriced(remotes[n])
    ensures Reached(Limits(store.maxOrders, store.maxFills), start, remotes, n + 1,
                    Progress(store.orders, store.fills, inserted', updated', recorded'))
  {
    hide Reached, Absorb, NegativelyPriced;
    ReachNext(Limits(store.maxOrders, store.maxFills), start, remotes, n,
              Progress(store.orders, store.fills, inserted, updated, recorded));
    ok, inserted', updated', recorded' := AbsorbRemote(store, remotes[n], inserted, updated, recorded);
  }

  /** The progress after the first n remote orders. */
  ghost predicate Reached(lim: Limits, start: Progress, remotes: seq<OrderRecord>, n: nat, p: Progress) {
    n <= |remotes| && p == AbsorbAll(lim, start, remotes[..n]) && DistinctIds(p.orders)
  }

  lemma ReachedMeans(lim: Limits, start: Progress, remotes: seq<OrderRecord>, n: nat, p: Progress)
    requires n <= |remotes| && Reached(lim, start, remotes, n, p)
    ensures p == AbsorbAll(lim, start, remotes[..n]) && DistinctIds(p.orders)
  {
  }

  lemma ReachNext(lim: Limits, start: Progress, remotes: seq<OrderRecord>, n: nat, p: Progress)
    requires n < |remotes| && Reached(lim, start, remotes, n, p)
    ensures Reached(lim, start, remotes, n + 1, Absorb(lim, p, remotes[n]))
  {
    hide Absorb, AbsorbAll, DistinctIds;
    AbsorbDistinct(lim, p, remotes[n]);
    AbsorbAllAppend(lim, start, remotes[..n], remotes[n]);
    assert remotes[..n + 1] == remotes[..n] + [remotes[n]];
  }

  /**
    A whole reconciliation pass, after the broker's snapshot was fetched. It completes unless some
    listed order has a negative average price, and then the system is ready exactly when no
    retained order needs reconciliation.
   */
  method RunLocked(store: StateStore, remotes: seq<OrderRecord>) returns (report: Option<Report>)
    requires DistinctIds(store.orders)
    modifies store`orders, store`fills, store`reconciliationReady
    ensures DistinctIds(store.orders)
    ensures report.None? ==>
              exists n :: 0 < n <= |remotes|
                && NegativelyPriced(remotes[n - 1])
                && var part := AbsorbAll(Limits(store.maxOrders, store.maxFills),
                                         Progress(old(store.orders), old(store.fills), 0, 0, 0), remotes[..n]);
                store.orders == part.orders && store.fills == part.fills
    ensures report.None? ==> store.reconciliationReady == old(store.reconciliationReady)
    ensures report.Some? ==>
              var pass := Pass(Limits(store.maxOrders, store.maxFills), old(store.orders), old(store.fills), remotes);
              && store.orders == pass.orders && store.fills == pass.fills
              && report.value.inserted == pass.inserted && report.value.updated == pass.updated
              && report.value.recorded == pass.recorded && report.value.examined == |remotes|
    ensures report.Some? ==>
              var absorbed := AbsorbAll(Limits(store.maxOrders, store.maxFills),
                                        Progress(old(store.orders), old(store.fills), 0, 0, 0), remotes);
              && report.value.unresolved == MissingIds(absorbed.orders, RemoteIds(remotes))
              && report.value.markedUnknown == |report.value.unresolved|
    ensures report.Some? ==> (store.reconciliationReady <==> NoneUnresolved(store.orders))
    ensures report.Some? ==> forall o :: o in store.orders && Unlisted(o, remotes) ==> !Live(o.status)
    ensures report.Some? && store.reconciliationReady ==>
              forall o :: o in store.orders && Live(o.status) && Present(o.brokerOrderId) ==>
                exists i :: 0 <= i < |remotes| && remotes[i].brokerOrderId == o.brokerOrderId
  {
    hide AbsorbAll, DistinctIds, MarkAll;
    var done, n, inserted, updated, recorded := AbsorbRemotes(store, remotes);
    if !done {
      return None;
    }
    assert remotes[..n] == remotes;
    ghost var absorbed := store.orders;
    var marked, unresolved := MarkMissing(store, RemoteIds(remotes));
    NoneLiveUnlisted(absorbed, remotes);
    var ready := forall o :: o in store.orders ==> !o.status.NeedsReconciliation?;
    store.SetReconciliationReady(ready);
    report := Some(Report(|remotes|, inserted, updated, recorded, marked, unresolved));
  }
}
