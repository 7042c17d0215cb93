/**
  The incremental fill ledger against the cumulative snapshots it is derived from. Snapshots of
  any number of orders arrive from any mix of sources, repeated, delayed or going backwards.
 */
module FillLedger {
  import opened Domain
  import opened Arithmetic
  import opened Store

  datatype Snapshot = Snapshot(order: OrderRecord, source: string)

  /** The ledger after the snapshots were recorded, in the order of arrival. */
  ghost function RecordAll(snaps: seq<Snapshot>, maxFills: nat): seq<FillRecord> {
    if |snaps| == 0 then []
    else
      var last := snaps[|snaps| - 1];
      RecordFill(RecordAll(snaps[..|snaps| - 1], maxFills), last.order, last.source, maxFills)
  }

  /** A snapshot of the order with something filled at a positive average price. */
  predicate Counts(s: Snapshot, id: OrderId) {
    && s.order.id == id
    && s.order.filledQuantity > 0.0
    && s.order.averageFillPrice.Some?
    && s.order.averageFillPrice.value > 0.0
  }

  /** `q` is the highest priced cumulative quantity among the snapshots of the order, 0 if there is none. */
  ghost predicate IsHighest(snaps: seq<Snapshot>, id: OrderId, q: real) {
    && q >= 0.0
    && (forall i :: 0 <= i < |snaps| && Counts(snaps[i], id) ==> snaps[i].order.filledQuantity <= q)
    && (q > 0.0 ==> exists i :: 0 <= i < |snaps| && Counts(snaps[i], id) && snaps[i].order.filledQuantity == q)
  }

  /** No two different orders share the reference that de-duplication keys are built from. */
  ghost predicate DistinctRefs(snaps: seq<Snapshot>) {
    forall i, j :: 0 <= i < |snaps| && 0 <= j < |snaps| && snaps[i].order.id != snaps[j].order.id
      ==> KeyRef(snaps[i].order) != KeyRef(snaps[j].order)
  }

  /** For one order, a larger cumulative quantity always comes with a larger cumulative value. */
  ghost predicate ValueGrows(snaps: seq<Snapshot>, id: OrderId) {
    forall i, j :: 0 <= i < |snaps| && 0 <= j < |snaps| && Counts(snaps[i], id) && Counts(snaps[j], id)
                   && snaps[i].order.filledQuantity < snaps[j].order.filledQuantity
      ==> CumulativeValue(snaps[i].order) < CumulativeValue(snaps[j].order)
  }

  /** Where a ledger entry comes from: a snapshot of its order, keyed by that snapshot's reference. */
  ghost predicate Traceable(f: FillRecord, snaps: seq<Snapshot>) {
    && f.quantity > 0.0 && f.price > 0.0
    && f.brokerFillId.Some? && f.orderId.Some?
    && exists i :: 0 <= i < |snaps| && f.orderId.value == snaps[i].order.id
                   && f.brokerFillId.value.reference == KeyRef(snaps[i].order)
  }

  ghost predicate WellKept(fills: seq<FillRecord>, snaps: seq<Snapshot>) {
    forall k :: 0 <= k < |fills| ==>
      && Traceable(fills[k], snaps)
      && fills[k].brokerFillId.value.cumulative <= RecordedQuantity(fills, fills[k].orderId.value)
  }

  /** Valid fills have non-negative sums. */
  lemma {:induction false} RecordedNonNegative(fills: seq<FillRecord>, id: OrderId)
    requires forall k :: 0 <= k < |fills| ==> fills[k].quantity > 0.0 && fills[k].price > 0.0
    ensures RecordedQuantity(fills, id) >= 0.0 && RecordedValue(fills, id) >= 0.0
  {
    if |fills| > 0 {
      RecordedNonNegative(fills[..|fills| - 1], id);
      var last := fills[|fills| - 1];
      assert last.price * last.quantity > 0.0;
    }
  }

  /** A recording that leaves room in the queue evicted nothing. */
  lemma RoomMeansNoEviction(fills: seq<FillRecord>, o: OrderRecord, source: string, maxFills: nat)
    requires |RecordFill(fills, o, source, maxFills)| < maxFills
    ensures |fills| < maxFills
    ensures RecordFill(fills, o, source, maxFills) == fills
            || (Advances(fills, o) && RecordFill(fills, o, source, maxFills) == fills + [NextFill(fills, o, source)])
  {
  }

  /** In a ledger of valid fills a snapshot advances it exactly when it is positively priced and reaches further. */
  lemma AdvancesIff(fills: seq<FillRecord>, o: OrderRecord)
    requires forall k :: 0 <= k < |fills| ==> fills[k].quantity > 0.0 && fills[k].price > 0.0
    ensures Advances(fills, o) <==>
            o.filledQuantity > 0.0 && o.averageFillPrice.Some? && o.averageFillPrice.value > 0.0
            && o.filledQuantity > RecordedQuantity(fills, o.id)
  {
    RecordedNonNegative(fills, o.id);
    if Examined(o) && o.filledQuantity > RecordedQuantity(fills, o.id) {
      NegativeValue(o);
      IncrementSign(o.averageFillPrice.value, CumulativeValue(o), RecordedValue(fills, o.id),
                    o.filledQuantity - RecordedQuantity(fills, o.id));
    }
    hide CumulativeValue, RecordedQuantity, RecordedValue;
  }

  lemma NegativeValue(o: OrderRecord)
    requires Examined(o)
    ensures o.averageFillPrice.value < 0.0 ==> CumulativeValue(o) < 0.0
  {
    if o.averageFillPrice.value < 0.0 {
      PositiveProduct(-o.averageFillPrice.value, o.filledQuantity);
    }
  }

  /** The price of an increment has the sign of the average price. */
  lemma IncrementSign(average: real, cumulative: real, recorded: real, quantity: real)
    requires average != 0.0 && recorded >= 0.0 && quantity > 0.0 && (average < 0.0 ==> cumulative < 0.0)
    ensures (if cumulative - recorded > 0.0 then (cumulative - recorded) / quantity else average) > 0.0
            <==> average > 0.0
  {
    QuotientSign(cumulative - recorded, quantity);
  }

  /** The key of an advancing snapshot is new unless a different order already used it. */
  lemma KeyIsFresh(fills: seq<FillRecord>, snaps: seq<Snapshot>, s: Snapshot)
    requires WellKept(fills, snaps) && DistinctRefs(snaps + [s])
    requires s.order.filledQuantity > RecordedQuantity(fills, s.order.id)
    ensures !HasKey(fills, FillKey(s.source, KeyRef(s.order), s.order.filledQuantity))
  {
    var all := snaps + [s];
    forall k | 0 <= k < |fills|
      ensures fills[k].brokerFillId != Some(FillKey(s.source, KeyRef(s.order), s.order.filledQuantity))
    {
      assert Traceable(fills[k], snaps);
      var i :| 0 <= i < |snaps| && fills[k].orderId.value == snaps[i].order.id
               && fills[k].brokerFillId.value.reference == KeyRef(snaps[i].order);
      assert all[i] == snaps[i] && all[|snaps|] == s;
    }
  }

  /** One more snapshot keeps the ledger traceable and brings the recorded quantity to the new maximum. */
  lemma RecordStep(fills: seq<FillRecord>, snaps: seq<Snapshot>, s: Snapshot, maxFills: nat)
    requires WellKept(fills, snaps) && DistinctRefs(snaps + [s])
    requires forall id :: IsHighest(snaps, id, RecordedQuantity(fills, id))
    requires |RecordFill(fills, s.order, s.source, maxFills)| < maxFills
    ensures var after := RecordFill(fills, s.order, s.source, maxFills);
            WellKept(after, snaps + [s]) && forall id :: IsHighest(snaps + [s], id, RecordedQuantity(after, id))
  {
    var after := RecordFill(fills, s.order, s.source, maxFills);
    var all := snaps + [s];
    AdvancesIff(fills, s.order);
    RoomMeansNoEviction(fills, s.order, s.source, maxFills);
    if Advances(fills, s.order) {
      KeyIsFresh(fills, snaps, s);
      var f := NextFill(fills, s.order, s.source);
      assert after == fills + [f];
      forall id
        ensures RecordedQuantity(after, id)
                == if s.order.id == id then s.order.filledQuantity else RecordedQuantity(fills, id)
      {
        RecordedAppend(fills, f, id);
      }
      assert all[|snaps|] == s;
      assert Traceable(f, all);
    }
    forall k | 0 <= k < |fills|
      ensures Traceable(fills[k], all)
    {
      assert Traceable(fills[k], snaps);
      var i :| 0 <= i < |snaps| && fills[k].orderId.value == snaps[i].order.id
               && fills[k].brokerFillId.value.reference == KeyRef(snaps[i].order);
      assert all[i] == snaps[i];
    }
    forall id
      ensures IsHighest(all, id, RecordedQuantity(after, id))
    {
      HighestStep(snaps, s, id, RecordedQuantity(fills, id), RecordedQuantity(after, id));
    }
  }

  lemma HighestStep(snaps: seq<Snapshot>, s: Snapshot, id: OrderId, before: real, after: real)
    requires IsHighest(snaps, id, before)
    requires after == if Counts(s, id) && s.order.filledQuantity > before then s.order.filledQuantity else before
    ensures IsHighest(snaps + [s], id, after)
  {
    var all := snaps + [s];
    assert forall i :: 0 <= i < |snaps| ==> all[i] == snaps[i];
    if after != before {
      assert all[|snaps|] == s;
    } else if after > 0.0 {
      var i :| 0 <= i < |snaps| && Counts(snaps[i], id) && snaps[i].order.filledQuantity == before;
      assert all[i] == snaps[i];
    }
  }

  lemma DistinctRefsPrefix(snaps: seq<Snapshot>, n: nat)
    requires n <= |snaps| && DistinctRefs(snaps)
    ensures DistinctRefs(snaps[..n])
  {
  }

  lemma {:induction false} LedgerFollowsSnapshots(snaps: seq<Snapshot>, maxFills: nat)
    requires DistinctRefs(snaps)
    requires |RecordAll(snaps, maxFills)| < maxFills
    ensures WellKept(RecordAll(snaps, maxFills), snaps)
    ensures forall id :: IsHighest(snaps, id, RecordedQuantity(RecordAll(snaps, maxFills), id))
  {
    if |snaps| > 0 {
      var prefix, last := snaps[..|snaps| - 1], snaps[|snaps| - 1];
      assert prefix + [last] == snaps;
      RoomMeansNoEviction(RecordAll(prefix, maxFills), last.order, last.source, maxFills);
      DistinctRefsPrefix(snaps, |snaps| - 1);
      LedgerFollowsSnapshots(prefix, maxFills);
      RecordStep(RecordAll(prefix, maxFills), prefix, last, maxFills);
    }
  }

  /**
    Main result on quantities: whatever arrives, the quantity that the ledger holds for an order
    is the highest priced cumulative quantity that was ever seen for it.
   */
  lemma RecordedIsHighestSeen(snaps: seq<Snapshot>, maxFills: nat, id: OrderId)
    requires DistinctRefs(snaps) && NothingEvicted(snaps, maxFills)
    ensures IsHighest(snaps, id, RecordedQuantity(RecordAll(snaps, maxFills), id))
  {
    LedgerLength(snaps, |snaps| + 1);
    UnboundedIsSame(snaps, maxFills, |snaps| + 1);
    LedgerFollowsSnapshots(snaps, |snaps| + 1);
  }

  /** An unbounded ledger would hold no more than the bounded one may. */
  ghost predicate NothingEvicted(snaps: seq<Snapshot>, maxFills: nat) {
    |RecordAll(snaps, |snaps| + 1)| <= maxFills
  }

  lemma OneMoreAtMost(fills: seq<FillRecord>, o: OrderRecord, source: string, maxFills: nat)
    ensures |RecordFill(fills, o, source, maxFills)| <= |fills| + 1
    ensures |fills| < maxFills ==> |fills| <= |RecordFill(fills, o, source, maxFills)|
  {
    hide Advances, NextFill;
  }

  lemma {:induction false} LedgerLength(snaps: seq<Snapshot>, maxFills: nat)
    ensures |RecordAll(snaps, maxFills)| <= |snaps|
  {
    if |snaps| > 0 {
      var prefix, last := snaps[..|snaps| - 1], snaps[|snaps| - 1];
      LedgerLength(prefix, maxFills);
      OneMoreAtMost(RecordAll(prefix, maxFills), last.order, last.source, maxFills);
      hide RecordFill;
    }
  }

  lemma SameWithRoom(fills: seq<FillRecord>, o: OrderRecord, source: string, maxFills: nat, big: nat)
    requires |fills| < big && |RecordFill(fills, o, source, big)| <= maxFills
    ensures RecordFill(fills, o, source, maxFills) == RecordFill(fills, o, source, big)
  {
    hide Advances, NextFill;
  }

  /** A ledger that evicts nothing is the unbounded one. */
  lemma {:induction false} UnboundedIsSame(snaps: seq<Snapshot>, maxFills: nat, big: nat)
    requires |snaps| < big && |RecordAll(snaps, big)| <= maxFills
    ensures RecordAll(snaps, maxFills) == RecordAll(snaps, big)
  {
    if |snaps| > 0 {
      var prefix, last := snaps[..|snaps| - 1], snaps[|snaps| - 1];
      LedgerLength(prefix, big);
      OneMoreAtMost(RecordAll(prefix, big), last.order, last.source, big);
      UnboundedIsSame(prefix, maxFills, big);
      SameWithRoom(RecordAll(prefix, big), last.order, last.source, maxFills, big);
      hide RecordFill;
    }
  }

  /**
    The value of one recording: after a snapshot was appended, the ledger's value for the order is
    the snapshot's cumulative value exactly when that exceeds what was recorded before.
   */
  lemma AppendedValueExactIff(fills: seq<FillRecord>, o: OrderRecord, source: string)
    requires Advances(fills, o)
    ensures RecordedValue(fills + [NextFill(fills, o, source)], o.id) == CumulativeValue(o)
            <==> CumulativeValue(o) > RecordedValue(fills, o.id)
  {
    var f := NextFill(fills, o, source);
    var cumulative, recorded := CumulativeValue(o), RecordedValue(fills, o.id);
    assert f.price
           == if cumulative - recorded > 0.0 then (cumulative - recorded) / f.quantity else o.averageFillPrice.value;
    DeltaPriceTimes(cumulative, recorded, f.quantity, f.price, o.averageFillPrice.value);
    RecordedAppend(fills, f, o.id);
  }

  /** The price of an increment times its quantity closes the gap exactly when there is one. */
  lemma DeltaPriceTimes(cumulative: real, recorded: real, quantity: real, price: real, average: real)
    requires quantity > 0.0 && price > 0.0
    requires price == if cumulative - recorded > 0.0 then (cumulative - recorded) / quantity else average
    ensures recorded + price * quantity == cumulative <==> cumulative > recorded
  {
    if cumulative - recorded > 0.0 {
      QuotientTimes(cumulative - recorded, quantity);
    } else {
      assert price * quantity > 0.0;
    }
  }

  /** What one more snapshot does to the recorded value of an order. */
  lemma ValueStep(prefix: seq<Snapshot>, last: Snapshot, maxFills: nat, id: OrderId)
    requires DistinctRefs(prefix + [last])
    requires |RecordAll(prefix + [last], maxFills)| < maxFills
    ensures |RecordAll(prefix, maxFills)| < maxFills
    ensures var before, after := RecordAll(prefix, maxFills), RecordAll(prefix + [last], maxFills);
            if Counts(last, id) && last.order.filledQuantity > RecordedQuantity(before, id)
            then CumulativeValue(last.order) > RecordedValue(before, id)
                 ==> RecordedValue(after, id) == CumulativeValue(last.order)
            else RecordedValue(after, id) == RecordedValue(before, id)
  {
    var all := prefix + [last];
    assert all[..|all| - 1] == prefix;
    var before := RecordAll(prefix, maxFills);
    RoomMeansNoEviction(before, last.order, last.source, maxFills);
    DistinctRefsPrefix(all, |prefix|);
    LedgerFollowsSnapshots(prefix, maxFills);
    AdvancesIff(before, last.order);
    if Advances(before, last.order) {
      KeyIsFresh(before, prefix, last);
      AppendedValueExactIff(before, last.order, last.source);
      RecordedAppend(before, NextFill(before, last.order, last.source), id);
    }
  }

  /** The earliest snapshot that attains the highest priced quantity of the order. */
  ghost predicate FirstHighest(snaps: seq<Snapshot>, id: OrderId, i: int) {
    && 0 <= i < |snaps|
    && Counts(snaps[i], id)
    && (forall j :: 0 <= j < |snaps| && Counts(snaps[j], id) ==>
          snaps[j].order.filledQuantity <= snaps[i].order.filledQuantity)
    && (forall j :: 0 <= j < i && Counts(snaps[j], id) ==>
          snaps[j].order.filledQuantity < snaps[i].order.filledQuantity)
  }

  /**
    Main result on values: when cumulative value grows with quantity, the ledger's value for an
    order is the average price times the quantity of the snapshot that first reached the maximum.
   */
  lemma RecordedValueIsExact(snaps: seq<Snapshot>, maxFills: nat, id: OrderId, i: int)
    requires DistinctRefs(snaps) && ValueGrows(snaps, id) && NothingEvicted(snaps, maxFills)
    requires FirstHighest(snaps, id, i)
    ensures RecordedValue(RecordAll(snaps, maxFills), id) == CumulativeValue(snaps[i].order)
  {
    hide RecordAll, RecordedValue, DistinctRefs, ValueGrows;
    LedgerLength(snaps, |snaps| + 1);
    UnboundedIsSame(snaps, maxFills, |snaps| + 1);
    ValueWithRoom(snaps, |snaps| + 1, id, i);
  }

  /** What the snapshots before the last one tell about the first to reach the maximum. */
  lemma FirstHighestPrefix(prefix: seq<Snapshot>, last: Snapshot, id: OrderId, i: int)
    requires ValueGrows(prefix + [last], id) && FirstHighest(prefix + [last], id, i)
    ensures i < |prefix| ==>
              && ValueGrows(prefix, id) && FirstHighest(prefix, id, i) && prefix[i] == (prefix + [last])[i]
              && (Counts(last, id) ==> last.order.filledQuantity <= prefix[i].order.filledQuantity)
    ensures i >= |prefix| ==>
              && i == |prefix| && Counts(last, id)
              && (forall j :: 0 <= j < |prefix| && Counts(prefix[j], id) ==>
                    prefix[j].order.filledQuantity < last.order.filledQuantity)
  {
    var all := prefix + [last];
    assert all[|prefix|] == last && forall j :: 0 <= j < |prefix| ==> all[j] == prefix[j];
    hide Counts, CumulativeValue;
  }

  /** Whether the last snapshot reaches further than everything recorded before it. */
  lemma LastReaches(prefix: seq<Snapshot>, last: Snapshot, maxFills: nat, id: OrderId, i: int)
    requires DistinctRefs(prefix) && |RecordAll(prefix, maxFills)| < maxFills
    requires ValueGrows(prefix + [last], id) && FirstHighest(prefix + [last], id, i)
    ensures Counts(last, id) && last.order.filledQuantity > RecordedQuantity(RecordAll(prefix, maxFills), id)
            <==> i == |prefix|
  {
    FirstHighestPrefix(prefix, last, id, i);
    LedgerFollowsSnapshots(prefix, maxFills);
    var q := RecordedQuantity(RecordAll(prefix, maxFills), id);
    assert IsHighest(prefix, id, q);
    hide RecordAll, WellKept, RecordedQuantity, ValueGrows, DistinctRefs;
  }

  lemma {:induction false} ValueWithRoom(snaps: seq<Snapshot>, maxFills: nat, id: OrderId, i: int)
    requires DistinctRefs(snaps) && ValueGrows(snaps, id)
    requires |RecordAll(snaps, maxFills)| < maxFills
    requires FirstHighest(snaps, id, i)
    ensures RecordedValue(RecordAll(snaps, maxFills), id) == CumulativeValue(snaps[i].order)
    decreases |snaps|, 0
  {
    assert 0 <= i < |snaps| && Examined(snaps[i].order);
    hide RecordAll, DistinctRefs, ValueGrows, RecordedQuantity, RecordedValue, FirstHighest, CumulativeValue;
    var prefix, last := snaps[..|snaps| - 1], snaps[|snaps| - 1];
    assert prefix + [last] == snaps && snaps[|prefix|] == last;
    DistinctRefsPrefix(snaps, |snaps| - 1);
    ValueStep(prefix, last, maxFills, id);
    LastReaches(prefix, last, maxFills, id, i);
    FirstHighestPrefix(prefix, last, id, i);
    if i < |prefix| {
      ValueWithRoom(prefix, maxFills, id, i);
    } else {
      PriorValueIsSmaller(prefix, maxFills, id, last);
    }
  }

  /** Before a new maximum arrives, the ledger's value for the order is below the new cumulative value. */
  lemma {:induction false} PriorValueIsSmaller(prefix: seq<Snapshot>, maxFills: nat, id: OrderId, last: Snapshot)
    requires DistinctRefs(prefix + [last]) && ValueGrows(prefix + [last], id)
    requires |RecordAll(prefix, maxFills)| < maxFills
    requires FirstHighest(prefix + [last], id, |prefix|)
    ensures RecordedValue(RecordAll(prefix, maxFills), id) < CumulativeValue(last.order)
    decreases |prefix|, 1
  {
    var all := prefix + [last];
    assert all[|prefix|] == last;
    assert forall j :: 0 <= j < |prefix| ==> all[j] == prefix[j];
    assert DistinctRefs(prefix) by {
      DistinctRefsPrefix(all, |prefix|);
      assert all[..|prefix|] == prefix;
    }
    if exists j :: FirstHighest(prefix, id, j) {
      var j :| FirstHighest(prefix, id, j);
      assert ValueGrows(prefix, id);
      ValueWithRoom(prefix, maxFills, id, j);
      assert Counts(all[j], id) && Counts(all[|prefix|], id);
    } else {
      NoneCounts(prefix, id);
      NothingRecorded(prefix, maxFills, id);
      assert CumulativeValue(last.order) > 0.0;
    }
  }

  /** If some snapshot of the order counts, one of them is the first to attain the maximum. */
  lemma {:induction false} NoneCounts(snaps: seq<Snapshot>, id: OrderId)
    requires forall j :: !FirstHighest(snaps, id, j)
    ensures forall j :: 0 <= j < |snaps| ==> !Counts(snaps[j], id)
  {
    var best := -1;
    for n := 0 to |snaps|
      invariant best == -1 ==> forall j :: 0 <= j < n ==> !Counts(snaps[j], id)
      invariant best != -1 ==> 0 <= best < n && FirstHighest(snaps[..n], id, best)
    {
      if Counts(snaps[n], id) && (best == -1 || snaps[n].order.filledQuantity > snaps[best].order.filledQuantity) {
        best := n;
      }
    }
    assert snaps[..|snaps|] == snaps;
  }

  lemma {:induction false} NothingRecorded(snaps: seq<Snapshot>, maxFills: nat, id: OrderId)
    requires DistinctRefs(snaps)
    requires |RecordAll(snaps, maxFills)| < maxFills
    requires forall j :: 0 <= j < |snaps| ==> !Counts(snaps[j], id)
    ensures RecordedValue(RecordAll(snaps, maxFills), id) == 0.0
  {
    if |snaps| > 0 {
      var prefix, last := snaps[..|snaps| - 1], snaps[|snaps| - 1];
      assert prefix + [last] == snaps;
      ValueStep(prefix, last, maxFills, id);
      DistinctRefsPrefix(snaps, |snaps| - 1);
      NothingRecorded(prefix, maxFills, id);
    }
  }

  /** Exactly when an advancing snapshot takes effect: its key must not be in the ledger yet. */
  lemma RecordingTakesEffectIff(fills: seq<FillRecord>, o: OrderRecord, source: string, maxFills: nat)
    requires Advances(fills, o) && |fills| < maxFills
    ensures RecordedQuantity(RecordFill(fills, o, source, maxFills), o.id) == o.filledQuantity
            <==> !HasKey(fills, FillKey(source, KeyRef(o), o.filledQuantity))
  {
    RecordedAppend(fills, NextFill(fills, o, source), o.id);
  }

  lemma UsedKeyBlocks(fills: seq<FillRecord>, o: OrderRecord, source: string, maxFills: nat)
    requires HasKey(fills, FillKey(source, KeyRef(o), o.filledQuantity))
    ensures RecordFill(fills, o, source, maxFills) == fills
  {
  }

  /** The first snapshot of a fresh ledger is recorded under its own key and order. */
  lemma FirstRecorded(o: OrderRecord, source: string, maxFills: nat)
    requires Counts(Snapshot(o, source), o.id) && maxFills >= 1
    ensures var fills := RecordFill([], o, source, maxFills);
            && |fills| == 1 && fills[0].brokerFillId == Some(FillKey(source, KeyRef(o), o.filledQuantity))
            && fills[0].orderId == Some(o.id)
  {
    AdvancesIff([], o);
  }

  /**
    The reference condition is needed: two local orders that carry one broker order id share a
    key, and whatever one source reports first makes the other order's equal fill disappear.
   */
  lemma SharedReferenceLosesFill(first: OrderRecord, second: OrderRecord, source: string, maxFills: nat)
    requires first.id != second.id && KeyRef(first) == KeyRef(second) && first.filledQuantity == second.filledQuantity
    requires Counts(Snapshot(first, source), first.id) && Counts(Snapshot(second, source), second.id)
    requires maxFills >= 2
    ensures var snaps := [Snapshot(first, source), Snapshot(second, source)];
            && |RecordAll(snaps, maxFills)| < maxFills
            && RecordedQuantity(RecordAll(snaps, maxFills), second.id) == 0.0
            && IsHighest(snaps, second.id, second.filledQuantity)
  {
    hide Advances, RecordFill;
    var one, two := Snapshot(first, source), Snapshot(second, source);
    assert [one, two][..1] == [one] && [one][..0] == [];
    FirstRecorded(first, source, maxFills);
    var fills := RecordFill([], first, source, maxFills);
    assert RecordAll([one], maxFills) == fills;
    assert HasKey(fills, FillKey(source, KeyRef(second), second.filledQuantity));
    UsedKeyBlocks(fills, second, source, maxFills);
    assert RecordedQuantity(fills[..0], second.id) == 0.0;
    assert Counts([one, two][1], second.id);
  }

  /** One recording into a ledger with room, under a key that is not there yet. */
  lemma RecordedOnTop(fills: seq<FillRecord>, o: OrderRecord, source: string, maxFills: nat)
    requires forall k :: 0 <= k < |fills| ==> fills[k].quantity > 0.0 && fills[k].price > 0.0
    requires Counts(Snapshot(o, source), o.id) && |fills| < maxFills && RecordedQuantity(fills, o.id) == 0.0
    requires !HasKey(fills, FillKey(source, KeyRef(o), o.filledQuantity))
    ensures var after := RecordFill(fills, o, source, maxFills);
            && |after| == |fills| + 1 && RecordedQuantity(after, o.id) == o.filledQuantity
            && after[..|fills|] == fills
            && after[|fills|].brokerFillId == Some(FillKey(source, KeyRef(o), o.filledQuantity))
            && after[|fills|].orderId == Some(o.id) && after[|fills|].quantity > 0.0 && after[|fills|].price > 0.0
            && forall id :: id != o.id ==> RecordedQuantity(after, id) == RecordedQuantity(fills, id)
  {
    AdvancesIff(fills, o);
    var f := NextFill(fills, o, source);
    RecordedAppend(fills, f, o.id);
    hide DeltaFill;
    forall id | id != o.id
      ensures RecordedQuantity(fills + [f], id) == RecordedQuantity(fills, id)
    {
      RecordedAppend(fills, f, id);
    }
  }

  /**
    The opposite failure of a shared reference: when two sources report the same broker order under
    two local ids, their keys differ and the broker's one fill is recorded twice in full.
   */
  lemma SharedReferenceRecordsTwice(first: OrderRecord, second: OrderRecord, sourceA: string, sourceB: string,
                                    maxFills: nat)
    requires first.id != second.id && KeyRef(first) == KeyRef(second) && first.filledQuantity == second.filledQuantity
    requires Counts(Snapshot(first, sourceA), first.id) && Counts(Snapshot(second, sourceB), second.id)
    requires sourceA != sourceB && maxFills >= 2
    ensures var fills := RecordAll([Snapshot(first, sourceA), Snapshot(second, sourceB)], maxFills);
            && |fills| == 2
            && RecordedQuantity(fills, first.id) == first.filledQuantity
            && RecordedQuantity(fills, second.id) == second.filledQuantity
  {
    hide Advances, RecordFill;
    var one, two := Snapshot(first, sourceA), Snapshot(second, sourceB);
    assert [one, two][..1] == [one] && [one][..0] == [];
    assert RecordAll([], maxFills) == [];
    RecordedOnTop([], first, sourceA, maxFills);
    var fills := RecordFill([], first, sourceA, maxFills);
    assert RecordAll([one], maxFills) == fills;
    assert RecordedQuantity([], second.id) == 0.0;
    RecordedOnTop(fills, second, sourceB, maxFills);
  }
}
