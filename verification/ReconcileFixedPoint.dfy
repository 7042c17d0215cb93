/**
  When reconciling twice against the same snapshot is a fixed point: exactly when the first pass
  settled everything that is listed. It does so also when the order table overflows and archives its
  oldest orders, as long as none of those is listed; for this the bounded pass is compared with one
  over a table that is large enough.
 */
module ReconcileFixedPoint {
  import opened Domain
  import opened Arithmetic
  import opened Store
  import opened Reconcile
  import FillLedger

  // ---------------------------------------------------------------- the ledger owns its keys

  /**
    A ledger that was recorded from snapshots owns its keys, unless another order shares the remote
    order's reference.
   */
  lemma LedgerOwnsKeys(p: Progress, snaps: seq<FillLedger.Snapshot>, remote: OrderRecord)
    requires Present(remote.brokerOrderId) && !Present(remote.clientOrderId)
    requires FillLedger.WellKept(p.fills, snaps)
    requires FillLedger.DistinctRefs(snaps + [FillLedger.Snapshot(Target(p.orders, remote), SOURCE)])
    ensures KeysOwned(p, remote)
  {
    var target := Target(p.orders, remote);
    var all := snaps + [FillLedger.Snapshot(target, SOURCE)];
    TargetFacts(p.orders, remote);
    hide Target, RecordedQuantity;
    forall k | 0 <= k < |p.fills| && p.fills[k].brokerFillId.Some?
               && p.fills[k].brokerFillId.value.reference == KeyRef(remote)
      ensures Of(p.fills[k], target.id)
    {
      assert FillLedger.Traceable(p.fills[k], snaps);
      var i :| 0 <= i < |snaps| && p.fills[k].orderId.value == snaps[i].order.id
               && p.fills[k].brokerFillId.value.reference == KeyRef(snaps[i].order);
      assert all[i] == snaps[i] && all[|snaps|].order == target;
    }
  }

  /** No two local orders share the reference of a listed order. */
  ghost predicate RefsApart(orders: seq<OrderRecord>, snaps: seq<FillLedger.Snapshot>, remotes: seq<OrderRecord>) {
    && FillLedger.DistinctRefs(snaps)
    && forall i :: 0 <= i < |remotes| ==>
         FillLedger.DistinctRefs(snaps + [FillLedger.Snapshot(Target(orders, remotes[i]), SOURCE)])
  }

  // ---------------------------------------------------------------- what a pass archives

  /** The order carries the broker id of a listed one. */
  predicate Listed(o: OrderRecord, remotes: seq<OrderRecord>) {
    o.brokerOrderId.Some? && o.brokerOrderId.value in RemoteIds(remotes)
  }

  predicate Known(orders: seq<OrderRecord>, remote: OrderRecord)
    requires remote.brokerOrderId.Some?
  {
    Find(orders, ByBroker(remote.brokerOrderId.value)) < |orders|
  }

  /** How many listed orders are new to the table. */
  function NewCount(orders: seq<OrderRecord>, remotes: seq<OrderRecord>): nat
    requires forall i :: 0 <= i < |remotes| ==> remotes[i].brokerOrderId.Some?
  {
    if |remotes| == 0 then 0 else (if Known(orders, remotes[0]) then 0 else 1) + NewCount(orders, remotes[1..])
  }

  /** Of the orders that must make room for the new ones, oldest first, none carries the id of one in `listed`. */
  ghost predicate Spares(maxOrders: nat, orders: seq<OrderRecord>, remotes: seq<OrderRecord>, listed: seq<OrderRecord>)
    requires forall i :: 0 <= i < |remotes| ==> remotes[i].brokerOrderId.Some?
  {
    var excess := |orders| + NewCount(orders, remotes) - maxOrders;
    && |orders| <= maxOrders && excess <= |orders|
    && forall i :: 0 <= i < excess ==> !Listed(orders[i], listed)
  }

  // ---------------------------------------------------------------- the bounded pass is the end of an unbounded one

  /** The end of a table, with what it lacks unlisted. */
  ghost predicate TailOrders(u: seq<OrderRecord>, b: seq<OrderRecord>, listed: seq<OrderRecord>) {
    && |b| <= |u| && u[|u| - |b|..] == b
    && (forall i :: 0 <= i < |u| - |b| ==> !Listed(u[i], listed))
  }

  /** The bounded progress differs from the unbounded one only in what its table lacks. */
  ghost predicate Tail(u: Progress, b: Progress, listed: seq<OrderRecord>) {
    TailOrders(u.orders, b.orders, listed) && u == Progress(u.orders, b.fills, b.inserted, b.updated, b.recorded)
  }

  lemma FindInTail(orders: seq<OrderRecord>, n: nat, key: Lookup)
    requires n <= |orders| && forall i :: 0 <= i < n ==> !Matches(orders[i], key)
    ensures Find(orders, key) == n + Find(orders[n..], key)
  {
    FindIsFirst(orders, key, n + Find(orders[n..], key));
  }

  /** A listed order is found at the same place, counted from the end. */
  lemma TailMatch(u: Progress, b: Progress, remote: OrderRecord, listed: seq<OrderRecord>)
    requires Tail(u, b, listed) && Present(remote.brokerOrderId) && !Present(remote.clientOrderId)
    requires remote.brokerOrderId.value in RemoteIds(listed)
    ensures var n := |u.orders| - |b.orders|;
            && Find(u.orders, ByBroker(remote.brokerOrderId.value))
               == n + Find(b.orders, ByBroker(remote.brokerOrderId.value))
            && Match(u.orders, remote) == n + Match(b.orders, remote)
            && Target(u.orders, remote) == Target(b.orders, remote)
            && (Known(u.orders, remote) <==> Known(b.orders, remote))
  {
    FindInTail(u.orders, |u.orders| - |b.orders|, ByBroker(remote.brokerOrderId.value));
    TargetFacts(u.orders, remote);
    TargetFacts(b.orders, remote);
    hide Merge, Find;
  }

  lemma TailSettled(u: Progress, b: Progress, remote: OrderRecord, listed: seq<OrderRecord>)
    requires Tail(u, b, listed) && Present(remote.brokerOrderId) && !Present(remote.clientOrderId)
    requires remote.brokerOrderId.value in RemoteIds(listed) && Settled(u, remote)
    ensures Settled(b, remote)
  {
    TailMatch(u, b, remote, listed);
    hide Merge, Advances, Find;
  }

  lemma TailDistinct(u: seq<OrderRecord>, n: nat)
    requires n <= |u| && DistinctIds(u)
    ensures DistinctIds(u[n..])
  {
  }

  /** Where an absorbed order ends up in a bounded table that may be full. */
  lemma AbsorbedBounded(lim: Limits, p: Progress, remote: OrderRecord)
    requires Present(remote.brokerOrderId) && !Present(remote.clientOrderId)
    requires DistinctIds(p.orders) && |p.orders| <= lim.maxOrders
    requires !Known(p.orders, remote) ==> forall o :: o in p.orders ==> o.id != remote.id
    ensures var i, target, after := Match(p.orders, remote), Target(p.orders, remote), Absorb(lim, p, remote).orders;
            && i <= |p.orders|
            && (i < |p.orders| ==> after == p.orders[i := target])
            && (i == |p.orders| && |p.orders| < lim.maxOrders ==> after == p.orders + [target])
            && (i == |p.orders| == lim.maxOrders ==> after == (p.orders + [target])[1..])
  {
    var i, target := Match(p.orders, remote), Target(p.orders, remote);
    TargetFacts(p.orders, remote);
    if i < |p.orders| {
      FindIsFirst(p.orders, ById(target.id), i);
      assert p.orders[i := p.orders[i]] == p.orders;
    } else {
      FindIsFirst(p.orders, ById(target.id), |p.orders|);
    }
    hide Merge, RecordFill, Advances;
  }

  lemma AbsorbCounts(lim: Limits, big: Limits, u: Progress, b: Progress, remote: OrderRecord, listed: seq<OrderRecord>)
    requires Tail(u, b, listed) && Present(remote.brokerOrderId) && !Present(remote.clientOrderId)
    requires remote.brokerOrderId.value in RemoteIds(listed) && lim.maxFills == big.maxFills
    ensures var u', b' := Absorb(big, u, remote), Absorb(lim, b, remote);
            u' == Progress(u'.orders, b'.fills, b'.inserted, b'.updated, b'.recorded)
  {
    TailMatch(u, b, remote, listed);
    hide Upsert, RecordFill, Advances, Target, Find, RemoteIds;
  }

  lemma TailReplace(u: seq<OrderRecord>, b: seq<OrderRecord>, i: nat, target: OrderRecord, listed: seq<OrderRecord>)
    requires TailOrders(u, b, listed) && i < |b|
    ensures TailOrders(u[|u| - |b| + i := target], b[i := target], listed)
  {
    hide Listed;
  }

  lemma TailAppend(u: seq<OrderRecord>, b: seq<OrderRecord>, target: OrderRecord, listed: seq<OrderRecord>)
    requires TailOrders(u, b, listed)
    ensures TailOrders(u + [target], b + [target], listed)
    ensures |b| > 0 && !Listed(b[0], listed) ==> TailOrders(u + [target], (b + [target])[1..], listed)
  {
    hide Listed;
    var n := |u| - |b|;
    assert (u + [target])[n..] == b + [target];
    assert (u + [target])[n + 1..] == (b + [target])[1..];
    if |b| > 0 {
      assert u[n] == b[0];
    }
  }

  /** When a full table takes a new order, the oldest one makes room, and it is not listed. */
  lemma SparesOldest(maxOrders: nat, orders: seq<OrderRecord>, remotes: seq<OrderRecord>, listed: seq<OrderRecord>)
    requires |remotes| > 0 && forall i :: 0 <= i < |remotes| ==> remotes[i].brokerOrderId.Some?
    requires Spares(maxOrders, orders, remotes, listed) && !Known(orders, remotes[0]) && |orders| == maxOrders
    ensures |orders| > 0 && !Listed(orders[0], listed)
  {
    assert NewCount(orders, remotes) >= 1;
  }

  lemma TailStepOrders(lim: Limits, big: Limits, u: Progress, b: Progress, remotes: seq<OrderRecord>,
                       listed: seq<OrderRecord>)
    requires |remotes| > 0 && Snapshot(remotes) && TailOrders(u.orders, b.orders, listed)
    requires DistinctIds(u.orders) && DistinctIds(b.orders) && |u.orders| < big.maxOrders
    requires FreshIfNew(u.orders, remotes[0]) && Spares(lim.maxOrders, b.orders, remotes, listed)
    requires Match(u.orders, remotes[0]) == |u.orders| - |b.orders| + Match(b.orders, remotes[0])
    requires Target(u.orders, remotes[0]) == Target(b.orders, remotes[0])
    requires !Known(b.orders, remotes[0]) ==> forall o :: o in b.orders ==> o.id != remotes[0].id
    ensures TailOrders(Absorb(big, u, remotes[0]).orders, Absorb(lim, b, remotes[0]).orders, listed)
  {
    var r := remotes[0];
    TargetFacts(b.orders, r);
    hide Absorb, Target, TailOrders, DistinctIds, FreshIfNew, Find;
    AbsorbedOrders(big, u, r);
    AbsorbedBounded(lim, b, r);
    hide Match;
    if Match(b.orders, r) < |b.orders| {
      TailReplace(u.orders, b.orders, Match(b.orders, r), Target(b.orders, r), listed);
    } else {
      TailAppend(u.orders, b.orders, Target(b.orders, r), listed);
      if |b.orders| == lim.maxOrders {
        SparesOldest(lim.maxOrders, b.orders, remotes, listed);
      }
    }
  }

  /** One remote order keeps the bounded table the end of the unbounded one. */
  lemma TailStep(lim: Limits, big: Limits, u: Progress, b: Progress, remotes: seq<OrderRecord>,
                 listed: seq<OrderRecord>)
    requires |remotes| > 0 && CanAbsorb(big, u, remotes) && Tail(u, b, listed) && lim.maxFills == big.maxFills
    requires RemoteIds(remotes) <= RemoteIds(listed) && Spares(lim.maxOrders, b.orders, remotes, listed)
    ensures Tail(Absorb(big, u, remotes[0]), Absorb(lim, b, remotes[0]), listed)
  {
    TailDistinct(u.orders, |u.orders| - |b.orders|);
    ListedId(remotes, 0);
    hide Absorb, Target, Match, Find, RemoteIds, DistinctIds, TailOrders, Spares;
    TailMatch(u, b, remotes[0], listed);
    AbsorbCounts(lim, big, u, b, remotes[0], listed);
    FreshInTail(u, b, remotes[0], listed);
    TailStepOrders(lim, big, u, b, remotes, listed);
  }

  // ---------------------------------------------------------------- what remains to be archived

  lemma {:induction false} NewCountSame(orders: seq<OrderRecord>, after: seq<OrderRecord>, remotes: seq<OrderRecord>)
    requires forall i :: 0 <= i < |remotes| ==> remotes[i].brokerOrderId.Some?
    requires forall i :: 0 <= i < |remotes| ==> (Known(orders, remotes[i]) <==> Known(after, remotes[i]))
    ensures NewCount(after, remotes) == NewCount(orders, remotes)
  {
    hide Known;
    if |remotes| > 0 {
      NewCountSame(orders, after, remotes[1..]);
    }
  }

  /**
    Whether a broker id is in the table does not change when an order with another one is stored or an
    unlisted one dropped.
   */
  lemma KnownStays(lim: Limits, b: Progress, remote: OrderRecord, other: OrderRecord)
    requires Present(remote.brokerOrderId) && !Present(remote.clientOrderId) && other.brokerOrderId.Some?
    requires DistinctIds(b.orders) && |b.orders| <= lim.maxOrders && other.brokerOrderId != remote.brokerOrderId
    requires !Known(b.orders, remote) ==> forall o :: o in b.orders ==> o.id != remote.id
    requires !Known(b.orders, remote) && |b.orders| == lim.maxOrders > 0 ==>
               b.orders[0].brokerOrderId != other.brokerOrderId
    ensures Known(Absorb(lim, b, remote).orders, other) <==> Known(b.orders, other)
  {
    var key, after := ByBroker(other.brokerOrderId.value), Absorb(lim, b, remote).orders;
    TargetFacts(b.orders, remote);
    AbsorbedBounded(lim, b, remote);
    hide Absorb, Target, Merge, DistinctIds;
    var i, j := Match(b.orders, remote), Find(b.orders, key);
    if i < |b.orders| {
      FindIsFirst(after, key, j);
    } else if |b.orders| < lim.maxOrders {
      FindIsFirst(after, key, if j < |b.orders| then j else |after|);
    } else if |b.orders| > 0 {
      FindIsFirst(after, key, if j < |b.orders| then j - 1 else |after|);
    }
  }

  lemma SparesRest(lim: Limits, b: Progress, remotes: seq<OrderRecord>, listed: seq<OrderRecord>)
    requires |remotes| > 0 && Snapshot(remotes) && DistinctIds(b.orders)
    requires !Known(b.orders, remotes[0]) ==> forall o :: o in b.orders ==> o.id != remotes[0].id
    requires RemoteIds(remotes) <= RemoteIds(listed) && Spares(lim.maxOrders, b.orders, remotes, listed)
    ensures Spares(lim.maxOrders, Absorb(lim, b, remotes[0]).orders, remotes[1..], listed)
  {
    var r, rest, after := remotes[0], remotes[1..], Absorb(lim, b, remotes[0]).orders;
    AbsorbedBounded(lim, b, r);
    TargetFacts(b.orders, r);
    forall i | 0 <= i < |rest|
      ensures Known(after, rest[i]) <==> Known(b.orders, rest[i])
    {
      ListedId(remotes, i + 1);
      KnownStays(lim, b, r, rest[i]);
    }
    NewCountSame(b.orders, after, rest);
    hide Absorb, Target, RemoteIds, Known, Snapshot, DistinctIds;
    assert NewCount(b.orders, remotes) == (if Known(b.orders, r) then 0 else 1) + NewCount(b.orders, rest);
  }

  /** The bounded pass is the end of the unbounded one, as long as the ledger has room. */
  lemma {:induction false} Simulates(lim: Limits, big: Limits, u: Progress, b: Progress, remotes: seq<OrderRecord>,
                                     listed: seq<OrderRecord>)
    requires CanAbsorb(big, u, remotes) && Tail(u, b, listed) && lim.maxFills == big.maxFills
    ensures RemoteIds(remotes) <= RemoteIds(listed) && Spares(lim.maxOrders, b.orders, remotes, listed)
            && |AbsorbAll(lim, b, remotes).fills| < lim.maxFills
            ==> Tail(AbsorbAll(big, u, remotes), AbsorbAll(lim, b, remotes), listed)
    decreases |remotes|
  {
    if |remotes| > 0 && RemoteIds(remotes) <= RemoteIds(listed) && Spares(lim.maxOrders, b.orders, remotes, listed)
       && |AbsorbAll(lim, b, remotes).fills| < lim.maxFills
    {
      var r, rest := remotes[0], remotes[1..];
      LedgerRoom(lim, Absorb(lim, b, r), rest);
      TailStep(lim, big, u, b, remotes, listed);
      CanAbsorbRest(big, u, remotes);
      TailDistinct(u.orders, |u.orders| - |b.orders|);
      ListedId(remotes, 0);
      TailMatch(u, b, r, listed);
      FreshInTail(u, b, r, listed);
      SparesRest(lim, b, remotes, listed);
      RestListed(remotes);
      assert AbsorbAll(big, u, remotes) == AbsorbAll(big, Absorb(big, u, r), rest);
      assert AbsorbAll(lim, b, remotes) == AbsorbAll(lim, Absorb(lim, b, r), rest);
      hide Absorb, AbsorbAll, CanAbsorb, Tail, Spares, RemoteIds;
      Simulates(lim, big, Absorb(big, u, r), Absorb(lim, b, r), rest, listed);
    }
  }

  lemma FreshInTail(u: Progress, b: Progress, remote: OrderRecord, listed: seq<OrderRecord>)
    requires Tail(u, b, listed) && Present(remote.brokerOrderId) && !Present(remote.clientOrderId)
    requires FreshIfNew(u.orders, remote) && (Known(u.orders, remote) <==> Known(b.orders, remote))
    ensures !Known(b.orders, remote) ==> forall o :: o in b.orders ==> o.id != remote.id
  {
    TargetFacts(u.orders, remote);
    assert forall o :: o in b.orders ==> o in u.orders;
  }

  lemma RestListed(remotes: seq<OrderRecord>)
    requires |remotes| > 0
    ensures RemoteIds(remotes[1..]) <= RemoteIds(remotes)
  {
    assert forall i :: 0 <= i < |remotes[1..]| ==> remotes[1..][i] == remotes[i + 1];
  }

  // ---------------------------------------------------------------- the exact condition

  /** The report's counters of one progress are at least those of another. */
  predicate CountsAtLeast(p: Progress, q: Progress) {
    p.inserted >= q.inserted && p.updated >= q.updated && p.recorded >= q.recorded
  }

  predicate SameCounts(p: Progress, q: Progress) {
    p.inserted == q.inserted && p.updated == q.updated && p.recorded == q.recorded
  }

  lemma AbsorbOnlyCounts(lim: Limits, p: Progress, remote: OrderRecord)
    ensures CountsAtLeast(Absorb(lim, p, remote), p)
  {
    hide Match, Target, Upsert, RecordFill, Advances;
  }

  lemma {:induction false} CountersOnlyGrow(lim: Limits, p: Progress, remotes: seq<OrderRecord>)
    ensures CountsAtLeast(AbsorbAll(lim, p, remotes), p)
    decreases |remotes|
  {
    hide Absorb;
    if |remotes| > 0 {
      AbsorbOnlyCounts(lim, p, remotes[0]);
      CountersOnlyGrow(lim, Absorb(lim, p, remotes[0]), remotes[1..]);
    }
  }

  /** One remote order moves no counter exactly when it is settled. */
  lemma NothingCountedIff(lim: Limits, p: Progress, remote: OrderRecord)
    requires Present(remote.brokerOrderId) && !Present(remote.clientOrderId)
    ensures SameCounts(Absorb(lim, p, remote), p) <==> Settled(p, remote)
  {
    TargetFacts(p.orders, remote);
    hide Merge, Upsert, RecordFill, Advances, Find;
  }

  /** A whole snapshot moves no counter exactly when all of it is settled. */
  lemma {:induction false} NothingCountedInAllIff(lim: Limits, p: Progress, remotes: seq<OrderRecord>)
    requires Snapshot(remotes)
    ensures SameCounts(AbsorbAll(lim, p, remotes), p) <==> AllSettled(p, remotes)
    decreases |remotes|
  {
    hide Absorb, Settled;
    if |remotes| > 0 {
      var first, rest := remotes[0], remotes[1..];
      AbsorbOnlyCounts(lim, p, first);
      CountersOnlyGrow(lim, Absorb(lim, p, first), rest);
      NothingCountedIff(lim, p, first);
      if Settled(p, first) {
        SettledAbsorbIsIdle(lim, p, first);
        NothingCountedInAllIff(lim, p, rest);
        assert forall i :: 1 <= i < |remotes| ==> remotes[i] == rest[i - 1];
      }
    }
  }

  /**
    Main result: after any first pass, the second pass over the same snapshot inserts nothing, updates
    nothing, records nothing and leaves the table and the ledger as they are, exactly when every
    listed order is settled in the table and ledger that the first pass left.
   */
  lemma SecondPassIsIdleIff(lim: Limits, orders: seq<OrderRecord>, fills: seq<FillRecord>, remotes: seq<OrderRecord>)
    requires Snapshot(remotes)
    ensures var first := Pass(lim, orders, fills, remotes);
            Pass(lim, first.orders, first.fills, remotes) == Progress(first.orders, first.fills, 0, 0, 0)
            <==> AllSettled(first, remotes)
  {
    var absorbed := AbsorbAll(lim, Progress(orders, fills, 0, 0, 0), remotes);
    MarkIdempotent(absorbed.orders, RemoteIds(remotes));
    hide AbsorbAll, MarkAll, RemoteIds, Settled, Snapshot;
    var first := Pass(lim, orders, fills, remotes);
    var again := Progress(first.orders, first.fills, 0, 0, 0);
    NothingCountedInAllIff(lim, again, remotes);
    SameTablesSettled(first, again, remotes);
    if AllSettled(first, remotes) {
      SettledPassIsIdle(lim, again, remotes);
    }
  }

  lemma SameTablesSettled(p: Progress, q: Progress, remotes: seq<OrderRecord>)
    requires p.orders == q.orders && p.fills == q.fills
    ensures AllSettled(p, remotes) <==> AllSettled(q, remotes)
  {
  }

  // ---------------------------------------------------------------- what the first pass settles

  /** The pass may archive orders, but none that is listed. */
  ghost predicate ArchivesNoneListed(lim: Limits, orders: seq<OrderRecord>, remotes: seq<OrderRecord>)
    requires Snapshot(remotes)
  {
    Spares(lim.maxOrders, orders, remotes, remotes)
  }

  /** After a pass everything listed is settled. */
  lemma PassSettles(lim: Limits, start: Progress, remotes: seq<OrderRecord>)
    requires DistinctIds(start.orders) && Snapshot(remotes) && ArchivesNoneListed(lim, start.orders, remotes)
    requires forall i :: 0 <= i < |remotes| ==> Absorbable(start, remotes[i])
    requires |AbsorbAll(lim, start, remotes).fills| < lim.maxFills
    ensures AllSettled(AbsorbAll(lim, start, remotes), remotes)
  {
    var big := Limits(|start.orders| + |remotes|, lim.maxFills);
    assert start.orders[0..] == start.orders;
    Simulates(lim, big, start, start, remotes, remotes);
    assert [] + remotes == remotes;
    AbsorbAllSettles(big, start, [], remotes);
    var u, b := AbsorbAll(big, start, remotes), AbsorbAll(lim, start, remotes);
    hide AbsorbAll, CanAbsorb, Tail, Settled, RemoteIds, Absorbable, Spares;
    forall i | 0 <= i < |remotes|
      ensures Settled(b, remotes[i])
    {
      ListedId(remotes, i);
      TailSettled(u, b, remotes[i], remotes);
    }
  }

  /**
    Reconciling twice against the same snapshot is a fixed point, even if the first pass archived
    unlisted orders: then it settles everything that is listed.
   */
  lemma SecondPassIsIdle(lim: Limits, orders: seq<OrderRecord>, fills: seq<FillRecord>, remotes: seq<OrderRecord>)
    requires DistinctIds(orders) && Snapshot(remotes) && ArchivesNoneListed(lim, orders, remotes)
    requires forall i :: 0 <= i < |remotes| ==> Absorbable(Progress(orders, fills, 0, 0, 0), remotes[i])
    requires |Pass(lim, orders, fills, remotes).fills| < lim.maxFills
    ensures var first := Pass(lim, orders, fills, remotes);
            Pass(lim, first.orders, first.fills, remotes) == Progress(first.orders, first.fills, 0, 0, 0)
  {
    var start := Progress(orders, fills, 0, 0, 0);
    hide AllSettled, Absorbable, ArchivesNoneListed, DistinctIds, Snapshot;
    PassSettles(lim, start, remotes);
    MarkKeepsAllSettled(AbsorbAll(lim, start, remotes), remotes);
    SecondPassIsIdleIff(lim, orders, fills, remotes);
  }

  /**
    The fixed point on ledgers as they come about: whatever snapshots from whatever sources were
    recorded before, the second pass is idle.
   */
  lemma SecondPassIsIdleOnRecordedLedger(lim: Limits, orders: seq<OrderRecord>, snaps: seq<FillLedger.Snapshot>,
                                         remotes: seq<OrderRecord>)
    requires DistinctIds(orders) && Snapshot(remotes) && ArchivesNoneListed(lim, orders, remotes)
    requires forall i :: 0 <= i < |remotes| ==> FreshIfNew(orders, remotes[i])
    requires RefsApart(orders, snaps, remotes)
    requires |Pass(lim, orders, FillLedger.RecordAll(snaps, lim.maxFills), remotes).fills| < lim.maxFills
    ensures var first := Pass(lim, orders, FillLedger.RecordAll(snaps, lim.maxFills), remotes);
            Pass(lim, first.orders, first.fills, remotes) == Progress(first.orders, first.fills, 0, 0, 0)
  {
    var fills := FillLedger.RecordAll(snaps, lim.maxFills);
    var start := Progress(orders, fills, 0, 0, 0);
    LedgerRoom(lim, start, remotes);
    FillLedger.LedgerFollowsSnapshots(snaps, lim.maxFills);
    hide FillLedger.WellKept, FillLedger.DistinctRefs, FillLedger.RecordAll, KeysOwned, FreshIfNew, Target, Pass;
    forall i | 0 <= i < |remotes|
      ensures Absorbable(start, remotes[i])
    {
      LedgerOwnsKeys(start, snaps, remotes[i]);
    }
    SecondPassIsIdle(lim, orders, fills, remotes);
  }

  // ---------------------------------------------------------------- archiving listed orders is what breaks it

  /** An order with another broker id stays known or unknown when a known one is absorbed. */
  lemma KnownAbsorb(lim: Limits, p: Progress, remote: OrderRecord, other: OrderRecord)
    requires Present(remote.brokerOrderId) && !Present(remote.clientOrderId) && other.brokerOrderId.Some?
    requires DistinctIds(p.orders) && |p.orders| <= lim.maxOrders && other.brokerOrderId != remote.brokerOrderId
    requires Known(p.orders, remote)
    ensures var after := Absorb(lim, p, remote);
            && (Known(after.orders, other) <==> Known(p.orders, other))
            && DistinctIds(after.orders) && |after.orders| == |p.orders|
  {
    KnownStays(lim, p, remote, other);
    AbsorbedBounded(lim, p, remote);
    AbsorbDistinct(lim, p, remote);
    TargetFacts(p.orders, remote);
    hide Absorb, Target, DistinctIds;
  }

  lemma InsertedIff(lim: Limits, p: Progress, remote: OrderRecord)
    requires Present(remote.brokerOrderId) && !Present(remote.clientOrderId)
    ensures Absorb(lim, p, remote).inserted == p.inserted <==> Known(p.orders, remote)
  {
    TargetFacts(p.orders, remote);
    hide Target, Upsert, RecordFill, Advances, Find;
  }

  lemma KnownAbsorbAll(lim: Limits, p: Progress, remotes: seq<OrderRecord>)
    requires |remotes| > 0 && Snapshot(remotes) && DistinctIds(p.orders) && |p.orders| <= lim.maxOrders
    requires Known(p.orders, remotes[0])
    ensures var after := Absorb(lim, p, remotes[0]);
            && (forall i :: 1 <= i < |remotes| ==> (Known(after.orders, remotes[i]) <==> Known(p.orders, remotes[i])))
            && DistinctIds(after.orders) && |after.orders| == |p.orders|
  {
    AbsorbedBounded(lim, p, remotes[0]);
    AbsorbDistinct(lim, p, remotes[0]);
    TargetFacts(p.orders, remotes[0]);
    hide Absorb, Target, DistinctIds, Known;
    forall i | 1 <= i < |remotes|
      ensures Known(Absorb(lim, p, remotes[0]).orders, remotes[i]) <==> Known(p.orders, remotes[i])
    {
      KnownAbsorb(lim, p, remotes[0], remotes[i]);
    }
  }

  /** A pass inserts nothing exactly when it finds every listed order in the table. */
  lemma {:induction false} InsertsNothingIff(lim: Limits, p: Progress, remotes: seq<OrderRecord>)
    requires Snapshot(remotes) && DistinctIds(p.orders) && |p.orders| <= lim.maxOrders
    ensures AbsorbAll(lim, p, remotes).inserted == p.inserted <==>
              forall i :: 0 <= i < |remotes| ==> Known(p.orders, remotes[i])
    decreases |remotes|
  {
    hide Absorb, Known, DistinctIds;
    if |remotes| > 0 {
      var first, rest := remotes[0], remotes[1..];
      AbsorbOnlyCounts(lim, p, first);
      CountersOnlyGrow(lim, Absorb(lim, p, first), rest);
      InsertedIff(lim, p, first);
      if Known(p.orders, first) {
        KnownAbsorbAll(lim, p, remotes);
        InsertsNothingIff(lim, Absorb(lim, p, first), rest);
        assert forall i :: 1 <= i < |remotes| ==> remotes[i] == rest[i - 1];
      }
    }
  }

  function BrokerIds(orders: seq<OrderRecord>): set<string> {
    set i | 0 <= i < |orders| && orders[i].brokerOrderId.Some? :: orders[i].brokerOrderId.value
  }

  lemma {:induction false} BrokerIdCount(orders: seq<OrderRecord>)
    ensures |BrokerIds(orders)| <= |orders|
  {
    if |orders| > 0 {
      var init, last := orders[..|orders| - 1], orders[|orders| - 1];
      BrokerIdCount(init);
      var more := if last.brokerOrderId.Some? then {last.brokerOrderId.value} else {};
      assert BrokerIds(orders) <= BrokerIds(init) + more;
      SubsetSize(BrokerIds(orders), BrokerIds(init) + more);
    }
  }

  lemma {:induction false} RemoteIdCount(remotes: seq<OrderRecord>)
    requires Snapshot(remotes)
    ensures |RemoteIds(remotes)| == |remotes|
  {
    if |remotes| > 0 {
      var init, last := remotes[..|remotes| - 1], remotes[|remotes| - 1];
      RemoteIdCount(init);
      assert remotes == init + [last];
      assert RemoteIds(remotes) == RemoteIds(init) + {last.brokerOrderId.value};
    }
  }

  lemma {:induction false} TableStaysBounded(lim: Limits, p: Progress, remotes: seq<OrderRecord>)
    requires DistinctIds(p.orders) && |p.orders| <= lim.maxOrders
    ensures DistinctIds(AbsorbAll(lim, p, remotes).orders) && |AbsorbAll(lim, p, remotes).orders| <= lim.maxOrders
    decreases |remotes|
  {
    if |remotes| > 0 {
      AbsorbDistinct(lim, p, remotes[0]);
      hide DistinctIds, Target, RecordFill, Advances;
      TableStaysBounded(lim, Absorb(lim, p, remotes[0]), remotes[1..]);
    }
  }

  /** The second pass inserts again exactly when a listed order is not in the table that the first pass left. */
  lemma ArchivedIsInsertedAgain(lim: Limits, orders: seq<OrderRecord>, fills: seq<FillRecord>,
                                remotes: seq<OrderRecord>)
    requires DistinctIds(orders) && |orders| <= lim.maxOrders && Snapshot(remotes)
    ensures var first := Pass(lim, orders, fills, remotes);
            Pass(lim, first.orders, first.fills, remotes).inserted > 0 <==>
              exists i :: 0 <= i < |remotes| && !Known(first.orders, remotes[i])
  {
    var start := Progress(orders, fills, 0, 0, 0);
    TableStaysBounded(lim, start, remotes);
    MarkIdempotent(AbsorbAll(lim, start, remotes).orders, RemoteIds(remotes));
    hide AbsorbAll, DistinctIds, Known, RemoteIds;
    var first := Pass(lim, orders, fills, remotes);
    InsertsNothingIff(lim, Progress(first.orders, first.fills, 0, 0, 0), remotes);
  }

  /** A snapshot with more orders than the table holds never settles: every second pass inserts again. */
  lemma SnapshotBeyondTableNeverSettles(lim: Limits, orders: seq<OrderRecord>, fills: seq<FillRecord>,
                                        remotes: seq<OrderRecord>)
    requires DistinctIds(orders) && |orders| <= lim.maxOrders < |remotes| && Snapshot(remotes)
    ensures var first := Pass(lim, orders, fills, remotes);
            Pass(lim, first.orders, first.fills, remotes).inserted > 0
  {
    var first := Pass(lim, orders, fills, remotes);
    ArchivedIsInsertedAgain(lim, orders, fills, remotes);
    TableStaysBounded(lim, Progress(orders, fills, 0, 0, 0), remotes);
    assert |first.orders| <= lim.maxOrders;
    hide Pass, AbsorbAll, DistinctIds;
    if Pass(lim, first.orders, first.fills, remotes).inserted == 0 {
      KnownIdsFit(first.orders, remotes);
    }
  }

  lemma KnownIdsFit(orders: seq<OrderRecord>, remotes: seq<OrderRecord>)
    requires Snapshot(remotes) && forall i :: 0 <= i < |remotes| ==> Known(orders, remotes[i])
    ensures |remotes| <= |orders|
  {
    RemoteIdCount(remotes);
    BrokerIdCount(orders);
    forall b | b in RemoteIds(remotes)
      ensures b in BrokerIds(orders)
    {
      var i :| 0 <= i < |remotes| && Present(remotes[i].brokerOrderId) && remotes[i].brokerOrderId.value == b;
      assert Known(orders, remotes[i]);
    }
    hide RemoteIds, BrokerIds;
    SubsetSize(RemoteIds(remotes), BrokerIds(orders));
  }
}
