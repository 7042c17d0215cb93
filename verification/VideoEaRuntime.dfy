/**
  The virtual-trigger cycle: an incremental crossing detector with a set of fired keys. It is shown
  to refine a test over the whole price history, and its snapshots to restore the cycle exactly.
 */
module VideoEaRuntime {
  import opened Domain
  import opened VideoEaPlanner

  datatype CycleState = Idle | Armed | Active | Paused | TakeProfit | Stopped | Invalidated

  predicate Terminal(state: CycleState) {
    state.TakeProfit? || state.Stopped? || state.Invalidated?
  }

  /** The runtime's fields as a value. */
  datatype Cycle = Cycle(
    state: CycleState,
    plan: Option<Plan>,
    lastPrice: Option<real>,
    fired: set<TriggerKey>,
    pnlR: real)

  const IDLE_CYCLE := Cycle(Idle, None, None, {}, 0.0)

  // ---------------------------------------------------------------- crossings

  /** The move from one price to the next crosses the trigger in its direction. */
  predicate Crossed(t: Trigger, previous: real, current: real) {
    || (t.side.Buy? && previous < t.price <= current)
    || (t.side.Sell? && previous > t.price >= current)
  }

  /** The triggers that a move crosses, in plan order. */
  function Activated(triggers: seq<Trigger>, previous: real, current: real): seq<Trigger> {
    if |triggers| == 0 then []
    else
      var last := triggers[|triggers| - 1];
      Activated(triggers[..|triggers| - 1], previous, current) + if Crossed(last, previous, current) then [last] else []
  }

  /** The activated triggers whose key has not fired yet. */
  function Fresh(triggers: seq<Trigger>, previous: real, current: real, fired: set<TriggerKey>): seq<Trigger> {
    if |triggers| == 0 then []
    else
      var last := triggers[|triggers| - 1];
      Fresh(triggers[..|triggers| - 1], previous, current, fired)
      + if Crossed(last, previous, current) && last.key !in fired then [last] else []
  }

  method Activate(triggers: seq<Trigger>, previous: real, current: real) returns (unseen: seq<Trigger>)
    ensures unseen == Activated(triggers, previous, current)
  {
    unseen := [];
    for i := 0 to |triggers|
      invariant unseen == Activated(triggers[..i], previous, current)
    {
      assert triggers[..i + 1][..i] == triggers[..i];
      var trigger := triggers[i];
      var up := trigger.side.Buy? && previous < trigger.price <= current;
      var down := trigger.side.Sell? && previous > trigger.price >= current;
      if up || down {
        unseen := unseen + [trigger];
      }
    }
    assert triggers[..|triggers|] == triggers;
  }

  /** The comprehension over the activated triggers that drops the fired ones. */
  function Unfired(triggers: seq<Trigger>, fired: set<TriggerKey>): seq<Trigger> {
    if |triggers| == 0 then []
    else
      var last := triggers[|triggers| - 1];
      Unfired(triggers[..|triggers| - 1], fired) + if last.key !in fired then [last] else []
  }

  lemma {:induction false} UnfiredIsFresh(triggers: seq<Trigger>, previous: real, current: real, fired: set<TriggerKey>)
    ensures Unfired(Activated(triggers, previous, current), fired) == Fresh(triggers, previous, current, fired)
  {
    if |triggers| > 0 {
      var init, last := triggers[..|triggers| - 1], triggers[|triggers| - 1];
      UnfiredIsFresh(init, previous, current, fired);
      var before := Activated(init, previous, current);
      hide Crossed;
      if Crossed(last, previous, current) {
        assert (before + [last])[..|before|] == before;
      } else {
        assert before + [] == before;
      }
    }
  }

  function Keys(triggers: seq<Trigger>): set<TriggerKey> {
    set i | 0 <= i < |triggers| :: triggers[i].key
  }

  // ---------------------------------------------------------------- the operations

  predicate BreaksCycle(plan: Plan, price: real) {
    plan.invalidation.Some?
    && ((plan.bias.Long? && price <= plan.invalidation.value) || (plan.bias.Short? && price >= plan.invalidation.value))
  }

  /** What `arm` refuses. */
  predicate CanArm(c: Cycle, plan: Plan, price: real) {
    price > 0.0 && plan.triggers != [] && !plan.executable && plan.researchOnly && !c.state.Armed? && !c.state.Active?
  }

  function ArmCycle(c: Cycle, plan: Plan, price: real): Cycle {
    if CanArm(c, plan, price) then Cycle(Armed, Some(plan), Some(price), {}, 0.0) else c
  }

  /** The observation reaches the detector. */
  predicate Observes(c: Cycle, price: real) {
    price > 0.0 && c.plan.Some? && c.lastPrice.Some? && (c.state.Armed? || c.state.Active?)
  }

  predicate Accepts(c: Cycle, price: real) {
    Observes(c, price) && !BreaksCycle(c.plan.value, price)
  }

  function Emits(c: Cycle, price: real): seq<Trigger> {
    if Accepts(c, price) then Fresh(c.plan.value.triggers, c.lastPrice.value, price, c.fired) else []
  }

  function PriceStep(c: Cycle, price: real): Cycle {
    if !Observes(c, price) then c
    else if BreaksCycle(c.plan.value, price) then c.(state := Invalidated, lastPrice := Some(price))
    else
      var unseen := Emits(c, price);
      c.(lastPrice := Some(price),
         fired := c.fired + Keys(unseen),
         state := if unseen != [] then Active else c.state)
  }

  function OnBasket(c: Cycle, pnlR: real): Cycle {
    if c.plan.None? || Terminal(c.state) then c
    else
      c.(pnlR := pnlR,
         state := if pnlR >= c.plan.value.basketTakeProfitR then TakeProfit
                  else if pnlR <= -c.plan.value.cycleStopR then Stopped
                  else c.state)
  }

  function PauseCycle(c: Cycle): Cycle {
    if c.plan.None? || Terminal(c.state) then c else c.(state := Paused)
  }

  function ResumeCycle(c: Cycle): Cycle {
    if c.plan.None? || !c.state.Paused? then c else c.(state := Armed)
  }

  /** The quantity of the triggers whose key has fired. */
  function FiredQuantity(triggers: seq<Trigger>, fired: set<TriggerKey>): nat {
    if |triggers| == 0 then 0
    else
      var last := triggers[|triggers| - 1];
      FiredQuantity(triggers[..|triggers| - 1], fired) + if last.key in fired then last.quantity else 0
  }

  // ---------------------------------------------------------------- the whole-history test

  /** Some earlier price lies before the trigger and some later one at or beyond it. */
  ghost predicate CrossedInHistory(t: Trigger, prices: seq<real>) {
    exists i, j :: 0 <= i < j < |prices| && Crossed(t, prices[i], prices[j])
  }

  /** The key of some planned trigger that the history crosses. */
  ghost predicate KeyCrossed(triggers: seq<Trigger>, prices: seq<real>, key: TriggerKey) {
    exists k :: 0 <= k < |triggers| && triggers[k].key == key && CrossedInHistory(triggers[k], prices)
  }

  /** One more price crosses the history exactly when the history was crossed or the last move crosses. */
  lemma CrossingIsIncremental(t: Trigger, prices: seq<real>, price: real)
    requires |prices| > 0
    ensures CrossedInHistory(t, prices + [price]) <==>
              CrossedInHistory(t, prices) || Crossed(t, prices[|prices| - 1], price)
  {
    var all, n := prices + [price], |prices|;
    assert forall i :: 0 <= i < n ==> all[i] == prices[i];
    if CrossedInHistory(t, all) {
      var i, j :| 0 <= i < j < |all| && Crossed(t, all[i], all[j]);
      if j < n {
        assert Crossed(t, prices[i], prices[j]);
      } else if i < n - 1 && !Crossed(t, prices[n - 1], price) {
        assert Crossed(t, prices[i], prices[n - 1]);
      }
    }
    if CrossedInHistory(t, prices) {
      var i, j :| 0 <= i < j < |prices| && Crossed(t, prices[i], prices[j]);
      assert Crossed(t, all[i], all[j]);
    }
    if Crossed(t, prices[n - 1], price) {
      assert Crossed(t, all[n - 1], all[n]);
    }
  }

  /** The trigger is planned and the move crosses it. */
  ghost predicate CrossedMember(triggers: seq<Trigger>, t: Trigger, previous: real, current: real) {
    exists k :: 0 <= k < |triggers| && t == triggers[k] && Crossed(triggers[k], previous, current)
  }

  /** Unfired, planned and crossed. */
  ghost predicate AllCrossed(unseen: seq<Trigger>, triggers: seq<Trigger>, previous: real, current: real,
                             fired: set<TriggerKey>)
  {
    forall i :: 0 <= i < |unseen| ==>
      unseen[i].key !in fired && CrossedMember(triggers, unseen[i], previous, current)
  }

  lemma CrossedMemberGrows(init: seq<Trigger>, last: Trigger, t: Trigger, previous: real, current: real)
    requires CrossedMember(init, t, previous, current)
    ensures CrossedMember(init + [last], t, previous, current)
  {
    hide Crossed;
    var k :| 0 <= k < |init| && t == init[k] && Crossed(init[k], previous, current);
    assert (init + [last])[k] == init[k];
  }

  /** Every fresh trigger is unfired, planned and crossed. */
  lemma {:induction false} FreshSound(triggers: seq<Trigger>, previous: real, current: real, fired: set<TriggerKey>)
    ensures AllCrossed(Fresh(triggers, previous, current, fired), triggers, previous, current, fired)
  {
    hide Crossed;
    if |triggers| > 0 {
      var init, last := triggers[..|triggers| - 1], triggers[|triggers| - 1];
      FreshSound(init, previous, current, fired);
      var before, unseen := Fresh(init, previous, current, fired), Fresh(triggers, previous, current, fired);
      assert AllCrossed(before, init, previous, current, fired);
      assert triggers == init + [last] && triggers[|init|] == last;
      forall i | 0 <= i < |unseen|
        ensures unseen[i].key !in fired && CrossedMember(triggers, unseen[i], previous, current)
      {
        if i < |before| {
          assert unseen[i] == before[i];
          CrossedMemberGrows(init, last, before[i], previous, current);
        } else {
          assert unseen[i] == last;
        }
      }
    }
  }

  /** Every planned trigger that is crossed and unfired is fresh. */
  lemma {:induction false} FreshComplete(triggers: seq<Trigger>, previous: real, current: real, fired: set<TriggerKey>)
    ensures forall k :: 0 <= k < |triggers| && Crossed(triggers[k], previous, current) && triggers[k].key !in fired
              ==> triggers[k] in Fresh(triggers, previous, current, fired)
  {
    if |triggers| > 0 {
      var init, last := triggers[..|triggers| - 1], triggers[|triggers| - 1];
      FreshComplete(init, previous, current, fired);
      hide Crossed;
      var before, unseen := Fresh(init, previous, current, fired), Fresh(triggers, previous, current, fired);
      forall k | 0 <= k < |triggers| && Crossed(triggers[k], previous, current) && triggers[k].key !in fired
        ensures triggers[k] in unseen
      {
        if k < |init| {
          assert triggers[k] == init[k];
          assert init[k] in before;
        } else {
          assert unseen[|unseen| - 1] == last;
        }
      }
    }
  }

  lemma FreshMembers(triggers: seq<Trigger>, previous: real, current: real, fired: set<TriggerKey>)
    ensures var unseen := Fresh(triggers, previous, current, fired);
            && AllCrossed(unseen, triggers, previous, current, fired)
            && (forall k :: 0 <= k < |triggers| && Crossed(triggers[k], previous, current) && triggers[k].key !in fired
                  ==> triggers[k] in unseen)
  {
    FreshSound(triggers, previous, current, fired);
    FreshComplete(triggers, previous, current, fired);
  }

  /** The keys of the fresh triggers are the unfired keys of the triggers that the move crosses. */
  lemma FreshKeys(triggers: seq<Trigger>, previous: real, current: real, fired: set<TriggerKey>, key: TriggerKey)
    ensures key in Keys(Fresh(triggers, previous, current, fired)) <==>
            && key !in fired
            && exists k :: 0 <= k < |triggers| && triggers[k].key == key && Crossed(triggers[k], previous, current)
  {
    var unseen := Fresh(triggers, previous, current, fired);
    FreshMembers(triggers, previous, current, fired);
    hide Fresh, Crossed;
    if key in Keys(unseen) {
      var i :| 0 <= i < |unseen| && unseen[i].key == key;
      assert CrossedMember(triggers, unseen[i], previous, current);
      var k :| 0 <= k < |triggers| && unseen[i] == triggers[k] && Crossed(triggers[k], previous, current);
    }
    if && key !in fired
       && exists k :: 0 <= k < |triggers| && triggers[k].key == key && Crossed(triggers[k], previous, current)
    {
      var k :| 0 <= k < |triggers| && triggers[k].key == key && Crossed(triggers[k], previous, current);
      var i :| 0 <= i < |unseen| && unseen[i] == triggers[k];
    }
  }

  /** One detector step keeps "fired" equal to the whole-history test. */
  lemma StepRefinesHistory(triggers: seq<Trigger>, prices: seq<real>, price: real, fired: set<TriggerKey>)
    requires |prices| > 0
    requires forall key :: key in fired <==> KeyCrossed(triggers, prices, key)
    ensures forall key :: key in fired + Keys(Fresh(triggers, prices[|prices| - 1], price, fired))
                          <==> KeyCrossed(triggers, prices + [price], key)
  {
    var last := prices[|prices| - 1];
    hide Crossed, CrossedInHistory, Fresh, Keys;
    forall key
      ensures key in fired + Keys(Fresh(triggers, last, price, fired)) <==> KeyCrossed(triggers, prices + [price], key)
    {
      FreshKeys(triggers, last, price, fired, key);
      forall k | 0 <= k < |triggers|
        ensures CrossedInHistory(triggers[k], prices + [price]) <==>
                  CrossedInHistory(triggers[k], prices) || Crossed(triggers[k], last, price)
      {
        CrossingIsIncremental(triggers[k], prices, price);
      }
    }
  }

  // ---------------------------------------------------------------- snapshots

  datatype Snapshot = Snapshot(
    state: CycleState,
    symbol: Option<Symbol>,
    plan: Option<Plan>,
    lastPrice: Option<real>,
    firedKeys: seq<TriggerKey>,
    firedQuantity: nat,
    pnlR: real,
    executable: bool)

  function KeySet(keys: seq<TriggerKey>): set<TriggerKey> {
    set i | 0 <= i < |keys| :: keys[i]
  }

  /** What `restore` raises on. */
  predicate Refuses(snap: Snapshot) {
    || snap.executable
    || |KeySet(snap.firedKeys)| != |snap.firedKeys|
    || (snap.plan.None?
        && (!snap.state.Idle? || snap.symbol.Some? || snap.lastPrice.Some? || KeySet(snap.firedKeys) != {}))
    || (snap.plan.Some?
        && (|| snap.plan.value.executable
            || !snap.plan.value.researchOnly
            || snap.symbol != Some(snap.plan.value.symbol)
            || snap.state.Idle?
            || !(KeySet(snap.firedKeys) <= Keys(snap.plan.value.triggers))
            || snap.lastPrice.None?
            || snap.lastPrice.value <= 0.0))
  }

  function Restored(snap: Snapshot): Cycle {
    Cycle(snap.state, snap.plan, snap.lastPrice, KeySet(snap.firedKeys), snap.pnlR)
  }

  /** The snapshot was taken of this cycle. */
  ghost predicate Describes(snap: Snapshot, c: Cycle) {
    && snap.state == c.state && snap.plan == c.plan && snap.lastPrice == c.lastPrice && snap.pnlR == c.pnlR
    && snap.symbol == (if c.plan.Some? then Some(c.plan.value.symbol) else None)
    && KeySet(snap.firedKeys) == c.fired && |snap.firedKeys| == |c.fired|
    && snap.firedQuantity == (if c.plan.Some? then FiredQuantity(c.plan.value.triggers, c.fired) else 0)
    && !snap.executable
  }

  /** What every reachable cycle satisfies. */
  ghost predicate WellFormed(c: Cycle) {
    && (c.state.Idle? <==> c.plan.None?)
    && (c.plan.None? ==> c.lastPrice.None? && c.fired == {})
    && (c.plan.Some? ==>
          && c.lastPrice.Some? && c.lastPrice.value > 0.0
          && c.fired <= Keys(c.plan.value.triggers)
          && !c.plan.value.executable && c.plan.value.researchOnly)
  }

  /** Restoring the snapshot of a reachable cycle is accepted and brings exactly that cycle back. */
  lemma SnapshotRoundTrip(c: Cycle, snap: Snapshot)
    requires WellFormed(c) && Describes(snap, c)
    ensures !Refuses(snap) && Restored(snap) == c
  {
    hide FiredQuantity, Keys;
  }

  /**
    A snapshot is accepted exactly when it describes a well-formed cycle, lists no key twice, names the plan's
    symbol and is not executable.
   */
  lemma AcceptedIff(snap: Snapshot)
    ensures !Refuses(snap) <==>
              && !snap.executable && WellFormed(Restored(snap)) && |KeySet(snap.firedKeys)| == |snap.firedKeys|
              && snap.symbol == match snap.plan { case Some(plan) => Some(plan.symbol) case None => None }
  {
  }

  /** An accepted snapshot always restores to a well-formed cycle. */
  lemma RestoredWellFormed(snap: Snapshot)
    requires !Refuses(snap)
    ensures WellFormed(Restored(snap))
  {
  }

  // ---------------------------------------------------------------- runs

  /** A cycle with the history it was shown since it was armed: accepted prices and emitted triggers. */
  datatype Session = Session(cycle: Cycle, prices: seq<real>, emitted: seq<Trigger>)

  datatype Event =
    | ArmEvent(plan: Plan, price: real)
    | PriceEvent(price: real)
    | BasketEvent(pnlR: real)
    | PauseEvent
    | ResumeEvent
    | ResetEvent
    | RestoreEvent(snap: Snapshot)

  function Next(s: Session, e: Event): Session {
    match e
    case ArmEvent(plan, price) =>
      if CanArm(s.cycle, plan, price) then Session(ArmCycle(s.cycle, plan, price), [price], []) else s
    case PriceEvent(price) =>
      Session(PriceStep(s.cycle, price),
              if Accepts(s.cycle, price) then s.prices + [price] else s.prices,
              s.emitted + Emits(s.cycle, price))
    case BasketEvent(pnlR) => s.(cycle := OnBasket(s.cycle, pnlR))
    case PauseEvent => s.(cycle := PauseCycle(s.cycle))
    case ResumeEvent => s.(cycle := ResumeCycle(s.cycle))
    case ResetEvent => Session(IDLE_CYCLE, [], [])
    case RestoreEvent(snap) => if Refuses(snap) then s else s.(cycle := Restored(snap))
  }

  const START := Session(IDLE_CYCLE, [], [])

  function Run(events: seq<Event>): Session {
    if |events| == 0 then START else Next(Run(events[..|events| - 1]), events[|events| - 1])
  }

  /** Every restore in the run is of the cycle's own current snapshot, as after a restart. */
  ghost predicate CurrentRestores(events: seq<Event>) {
    forall i :: 0 <= i < |events| && events[i].RestoreEvent? ==> Describes(events[i].snap, Run(events[..i]).cycle)
  }

  ghost predicate Tracks(c: Cycle, prices: seq<real>)
    requires c.plan.Some?
  {
    && |prices| > 0
    && (!c.state.Invalidated? ==> c.lastPrice == Some(prices[|prices| - 1]))
    && (forall key :: key in c.fired <==> KeyCrossed(c.plan.value.triggers, prices, key))
  }

  ghost predicate SessionOk(s: Session) {
    && WellFormed(s.cycle)
    && (s.cycle.plan.Some? ==> Tracks(s.cycle, s.prices) && Keys(s.emitted) == s.cycle.fired)
    && (s.cycle.plan.None? ==> s.emitted == [])
  }

  lemma ArmedOk(s: Session, plan: Plan, price: real)
    requires CanArm(s.cycle, plan, price)
    ensures SessionOk(Next(s, ArmEvent(plan, price)))
  {
    assert forall key :: !KeyCrossed(plan.triggers, [price], key);
  }

  lemma KeysConcat(a: seq<Trigger>, b: seq<Trigger>)
    ensures Keys(a + b) == Keys(a) + Keys(b)
  {
    forall key
      ensures key in Keys(a + b) <==> key in Keys(a) + Keys(b)
    {
      if key in Keys(a) {
        var i :| 0 <= i < |a| && a[i].key == key;
        assert (a + b)[i].key == key;
      }
      if key in Keys(b) {
        var i :| 0 <= i < |b| && b[i].key == key;
        assert (a + b)[|a| + i].key == key;
      }
    }
  }

  lemma FreshNotFired(triggers: seq<Trigger>, previous: real, price: real, fired: set<TriggerKey>)
    ensures Keys(Fresh(triggers, previous, price, fired)) !! fired
    ensures Keys(Fresh(triggers, previous, price, fired)) <= Keys(triggers)
  {
    FreshMembers(triggers, previous, price, fired);
    hide Fresh, Crossed;
  }

  /** An accepted price appends to the history, fires the fresh keys and emits the fresh triggers. */
  lemma AcceptedShape(s: Session, price: real)
    requires SessionOk(s) && Accepts(s.cycle, price)
    ensures |s.prices| > 0
    ensures var c := s.cycle;
            var more := Fresh(c.plan.value.triggers, s.prices[|s.prices| - 1], price, c.fired);
            var after := Next(s, PriceEvent(price));
            && after.prices == s.prices + [price] && after.emitted == s.emitted + more
            && after.cycle.plan == c.plan && after.cycle.lastPrice == Some(price)
            && after.cycle.fired == c.fired + Keys(more)
            && (after.cycle.state.Armed? || after.cycle.state.Active?)
  {
    hide Fresh, Keys, KeyCrossed, DistinctKeys, TotalQuantity, FiredQuantity, BreaksCycle;
  }

  lemma AcceptedPriceOk(s: Session, price: real)
    requires SessionOk(s) && Accepts(s.cycle, price)
    ensures SessionOk(Next(s, PriceEvent(price)))
  {
    var c, triggers := s.cycle, s.cycle.plan.value.triggers;
    AcceptedShape(s, price);
    var last := s.prices[|s.prices| - 1];
    var more := Fresh(triggers, last, price, c.fired);
    hide Fresh, Keys, KeyCrossed, DistinctKeys, TotalQuantity, FiredQuantity, BreaksCycle, Next;
    StepRefinesHistory(triggers, s.prices, price, c.fired);
    KeysConcat(s.emitted, more);
    FreshNotFired(triggers, last, price, c.fired);
  }

  lemma NextOk(s: Session, e: Event)
    requires SessionOk(s)
    requires e.RestoreEvent? ==> Describes(e.snap, s.cycle)
    ensures SessionOk(Next(s, e))
  {
    match e {
      case ArmEvent(plan, price) =>
        if CanArm(s.cycle, plan, price) {
          ArmedOk(s, plan, price);
        }
      case PriceEvent(price) =>
        if Accepts(s.cycle, price) {
          AcceptedPriceOk(s, price);
        } else {
          hide Fresh, KeyCrossed, DistinctKeys, TotalQuantity, FiredQuantity, Keys;
          assert s.emitted + [] == s.emitted;
        }
      case RestoreEvent(snap) => SnapshotRoundTrip(s.cycle, snap);
      case _ => hide KeyCrossed, DistinctKeys, TotalQuantity, FiredQuantity, Keys;
    }
  }

  lemma {:induction false} EveryRunOk(events: seq<Event>)
    requires CurrentRestores(events)
    ensures SessionOk(Run(events))
  {
    if |events| > 0 {
      var init := events[..|events| - 1];
      assert forall i :: 0 <= i < |init| ==> init[i] == events[i] && init[..i] == events[..i];
      EveryRunOk(init);
      hide SessionOk, Next;
      NextOk(Run(init), events[|events| - 1]);
    }
  }

  /**
    Main result: in every run, whatever is paused, resumed or restarted, a planned trigger with a
    key of its own has fired exactly when some accepted price lies before it and some later
    accepted price at or beyond it.
   */
  lemma FiredIffHistoryCrosses(events: seq<Event>, k: nat)
    requires CurrentRestores(events) && Run(events).cycle.plan.Some?
    requires var triggers := Run(events).cycle.plan.value.triggers; k < |triggers| && DistinctKeys(triggers)
    ensures var s := Run(events);
            var t := s.cycle.plan.value.triggers[k];
            t.key in s.cycle.fired <==>
            exists i, j :: 0 <= i < j < |s.prices|
                           && if t.side.Buy? then s.prices[i] < t.price <= s.prices[j]
                              else t.side.Sell? && s.prices[i] > t.price >= s.prices[j]
  {
    EveryRunOk(events);
    var s := Run(events);
    hide Run, WellFormed;
    var triggers := s.cycle.plan.value.triggers;
    if triggers[k].key in s.cycle.fired {
      var n :| 0 <= n < |triggers| && triggers[n].key == triggers[k].key && CrossedInHistory(triggers[n], s.prices);
      assert n == k;
      var i, j :| 0 <= i < j < |s.prices| && Crossed(triggers[k], s.prices[i], s.prices[j]);
    }
  }

  // ---------------------------------------------------------------- what the states mean

  /** The price has reached the invalidation price: from above for LONG, from below for SHORT. */
  predicate ReachesInvalidation(plan: Plan, price: real) {
    match plan.invalidation
    case None => false
    case Some(at) =>
      (match plan.bias
       case Long => price <= at
       case Short => price >= at
       case Neutral => false)
  }

  /** What each state says about the last basket result, the last price and the fired triggers. */
  ghost predicate StateMeans(c: Cycle)
    requires c.plan.Some? && c.lastPrice.Some?
  {
    var target, stop := c.plan.value.basketTakeProfitR, c.plan.value.cycleStopR;
    && (c.state.TakeProfit? ==> c.pnlR >= target)
    && (c.state.Stopped? ==> c.pnlR <= -stop && c.pnlR < target)
    && (!c.state.TakeProfit? && !c.state.Stopped? ==> -stop < c.pnlR < target)
    && (c.state.Invalidated? ==> ReachesInvalidation(c.plan.value, c.lastPrice.value))
    && (c.state.Active? ==> c.fired != {})
  }

  /** Every armed plan has a positive target and a positive stop. */
  ghost predicate PositiveTargets(events: seq<Event>) {
    forall i :: 0 <= i < |events| && events[i].ArmEvent? ==>
      events[i].plan.basketTakeProfitR > 0.0 && events[i].plan.cycleStopR > 0.0
  }

  ghost predicate StatesOk(c: Cycle) {
    WellFormed(c) && (c.plan.Some? ==> StateMeans(c))
  }

  lemma NextStatesOk(s: Session, e: Event)
    requires StatesOk(s.cycle)
    requires e.RestoreEvent? ==> Describes(e.snap, s.cycle)
    requires e.ArmEvent? ==> e.plan.basketTakeProfitR > 0.0 && e.plan.cycleStopR > 0.0
    ensures StatesOk(Next(s, e).cycle)
  {
    match e {
      case RestoreEvent(snap) =>
        SnapshotRoundTrip(s.cycle, snap);
        hide StatesOk;
      case PriceEvent(price) => PriceStatesOk(s.cycle, price);
      case _ => hide Keys, FiredQuantity;
    }
  }

  lemma PriceStatesOk(c: Cycle, price: real)
    requires StatesOk(c)
    ensures StatesOk(PriceStep(c, price))
  {
    if Accepts(c, price) {
      var unseen := Emits(c, price);
      FreshNotFired(c.plan.value.triggers, c.lastPrice.value, price, c.fired);
      if unseen != [] {
        assert unseen[0].key in Keys(unseen);
      }
    }
    hide Keys, Fresh, Emits;
  }

  /**
    Main result on states: in every run, a cycle is in profit exactly when its last basket result reached the
    target, stopped exactly when it reached the stop, and otherwise the result lies strictly between; an
    invalidated cycle saw its invalidation price, and an active one has fired something.
   */
  lemma {:induction false} StatesInEveryRun(events: seq<Event>)
    requires CurrentRestores(events) && PositiveTargets(events)
    ensures StatesOk(Run(events).cycle)
  {
    if |events| > 0 {
      var init := events[..|events| - 1];
      assert forall i :: 0 <= i < |init| ==> init[i] == events[i] && init[..i] == events[..i];
      StatesInEveryRun(init);
      hide StatesOk, Next;
      NextStatesOk(Run(init), events[|events| - 1]);
    }
  }

  /** A cycle that waits for prices. */
  predicate Watching(c: Cycle) {
    c.plan.Some? && c.lastPrice.Some? && (c.state.Armed? || c.state.Active?)
  }

  /**
    A price in words: it is ignored unless it is positive and the cycle is armed or active; at the invalidation
    price the cycle ends without firing; otherwise the price is remembered, and the cycle is active if something fired.
   */
  lemma PriceInWords(c: Cycle, price: real)
    ensures var after := PriceStep(c, price);
            if price <= 0.0 || !Watching(c) then after == c && Emits(c, price) == []
            else if ReachesInvalidation(c.plan.value, price)
            then after == c.(state := Invalidated, lastPrice := Some(price)) && Emits(c, price) == []
            else && after.plan == c.plan && after.lastPrice == Some(price) && after.pnlR == c.pnlR
                 && after.state == (if Emits(c, price) == [] then c.state else Active)
                 && (Emits(c, price) == [] ==> after.fired == c.fired)
  {
    hide Fresh;
    assert Keys([]) == {};
  }

  /**
    A basket result in words: a closed or empty cycle ignores it; otherwise the target is looked at
    before the stop.
   */
  lemma BasketInWords(c: Cycle, pnlR: real)
    ensures var after := OnBasket(c, pnlR);
            if c.plan.None? || c.state.TakeProfit? || c.state.Stopped? || c.state.Invalidated? then after == c
            else && after == c.(pnlR := pnlR, state := after.state)
                 && (pnlR >= c.plan.value.basketTakeProfitR ==> after.state.TakeProfit?)
                 && (pnlR < c.plan.value.basketTakeProfitR && pnlR <= -c.plan.value.cycleStopR ==> after.state.Stopped?)
                 && (-c.plan.value.cycleStopR < pnlR < c.plan.value.basketTakeProfitR ==> after.state == c.state)
  {
  }

  /**
    Pausing and resuming: an open cycle comes back armed with everything else as it was; closed and
    empty ones stay.
   */
  lemma PauseThenResume(c: Cycle)
    requires WellFormed(c)
    ensures var paused := PauseCycle(c);
            && PauseCycle(paused) == paused
            && (c.state.Armed? || c.state.Active? || c.state.Paused? ==>
                  paused == c.(state := Paused) && ResumeCycle(paused) == c.(state := Armed))
            && (c.state.Idle? || c.state.TakeProfit? || c.state.Stopped? || c.state.Invalidated? ==>
                  paused == c && ResumeCycle(c) == c)
            && (c.state.Armed? || c.state.Active? ==> ResumeCycle(c) == c)
  {
  }

  /**
    Arming in words: refused for a price that is not positive, for an empty or executable plan, or
    while a cycle watches prices.
   */
  lemma ArmInWords(c: Cycle, plan: Plan, price: real)
    ensures ArmCycle(c, plan, price) ==
            if && price > 0.0 && |plan.triggers| > 0 && plan.researchOnly && !plan.executable
               && !c.state.Armed? && !c.state.Active?
            then Cycle(Armed, Some(plan), Some(price), {}, 0.0) else c
  {
  }

  // ---------------------------------------------------------------- the runtime object

  /** How an operation answers: it raises, ignores the call, or acts on it. */
  datatype Reply = Raises | Ignores | Acts

  class VideoEaCycleRuntime {
    var state: CycleState
    var plan: Option<Plan>
    var lastPrice: Option<real>
    var fired: set<TriggerKey>
    var pnlR: real

    ghost function View(): Cycle
      reads this
    {
      Cycle(state, plan, lastPrice, fired, pnlR)
    }

    constructor ()
      ensures View() == IDLE_CYCLE
    {
      state, plan, lastPrice, fired, pnlR := Idle, None, None, {}, 0.0;
    }

    method Arm(p: Plan, currentPrice: real) returns (reply: Reply)
      modifies this
      ensures View() == ArmCycle(old(View()), p, currentPrice)
      ensures reply == if CanArm(old(View()), p, currentPrice) then Acts else Raises
    {
      if currentPrice <= 0.0 || p.triggers == [] || p.executable || !p.researchOnly {
        return Raises;
      }
      if state.Armed? || state.Active? {
        return Raises;
      }
      plan, state, lastPrice, fired, pnlR := Some(p), Armed, Some(currentPrice), {}, 0.0;
      reply := Acts;
    }

    method OnPrice(price: real) returns (reply: Reply, triggers: seq<Trigger>)
      modifies this
      ensures View() == PriceStep(old(View()), price)
      ensures triggers == Emits(old(View()), price)
      ensures reply.Raises? <==> price <= 0.0
      ensures reply.Acts? <==> Observes(old(View()), price)
    {
      if price <= 0.0 {
        return Raises, [];
      }
      if plan.None? || lastPrice.None? {
        return Ignores, [];
      }
      if !state.Armed? && !state.Active? {
        return Ignores, [];
      }
      ghost var before := View();
      if Breaks(price) {
        state, lastPrice := Invalidated, Some(price);
        return Acts, [];
      }
      var activated := Activate(plan.value.triggers, lastPrice.value, price);
      UnfiredIsFresh(plan.value.triggers, lastPrice.value, price, fired);
      lastPrice := Some(price);
      var unseen: seq<Trigger> := [];
      for i := 0 to |activated|
        invariant View() == before.(lastPrice := Some(price))
        invariant unseen == Unfired(activated[..i], fired)
      {
        assert activated[..i + 1][..i] == activated[..i];
        if activated[i].key !in fired {
          unseen := unseen + [activated[i]];
        }
      }
      assert activated[..|activated|] == activated;
      hide Fresh, Activated, Unfired, BreaksCycle;
      fired := fired + Keys(unseen);
      if unseen != [] {
        state := Active;
      }
      assert View() == PriceStep(before, price);
      return Acts, unseen;
    }

    method OnBasketPnlR(r: real) returns (reply: Reply)
      modifies this
      ensures View() == OnBasket(old(View()), r)
      ensures reply == if old(plan).None? || Terminal(old(state)) then Ignores else Acts
    {
      if plan.None? || Terminal(state) {
        return Ignores;
      }
      pnlR := r;
      if r >= plan.value.basketTakeProfitR {
        state := TakeProfit;
      } else if r <= -plan.value.cycleStopR {
        state := Stopped;
      }
      reply := Acts;
    }

    method Reset()
      modifies this
      ensures View() == IDLE_CYCLE
    {
      plan, state, lastPrice, fired, pnlR := None, Idle, None, {}, 0.0;
    }

    method Pause()
      modifies this
      ensures View() == PauseCycle(old(View()))
    {
      if plan.None? || Terminal(state) || state.Paused? {
        return;
      }
      state := Paused;
    }

    method Resume()
      modifies this
      ensures View() == ResumeCycle(old(View()))
    {
      if plan.None? || Terminal(state) || !state.Paused? {
        return;
      }
      state := Armed;
    }

    method Restore(snap: Snapshot) returns (reply: Reply)
      modifies this
      ensures reply == if Refuses(snap) then Raises else Acts
      ensures View() == if Refuses(snap) then old(View()) else Restored(snap)
    {
      var keys := KeySet(snap.firedKeys);
      if snap.executable || |keys| != |snap.firedKeys| {
        return Raises;
      }
      if snap.plan.None? {
        if !snap.state.Idle? || snap.symbol.Some? || snap.lastPrice.Some? || keys != {} {
          return Raises;
        }
      } else {
        var p := snap.plan.value;
        if p.executable || !p.researchOnly || snap.symbol != Some(p.symbol) || snap.state.Idle? {
          return Raises;
        }
        if !(keys <= Keys(p.triggers)) || snap.lastPrice.None? || snap.lastPrice.value <= 0.0 {
          return Raises;
        }
      }
      plan, state, lastPrice, fired, pnlR := snap.plan, snap.state, snap.lastPrice, keys, snap.pnlR;
      reply := Acts;
    }

    method TakeSnapshot() returns (snap: Snapshot)
      ensures Describes(snap, View())
    {
      var quantity := 0;
      if plan.Some? {
        var triggers := plan.value.triggers;
        for i := 0 to |triggers|
          invariant quantity == FiredQuantity(triggers[..i], fired)
        {
          assert triggers[..i + 1][..i] == triggers[..i];
          if triggers[i].key in fired {
            quantity := quantity + triggers[i].quantity;
          }
        }
        assert triggers[..|triggers|] == triggers;
      }
      var keys := ListKeys(fired);
      var symbol := if plan.Some? then Some(plan.value.symbol) else None;
      snap := Snapshot.Snapshot(state, symbol, plan, lastPrice, keys, quantity, pnlR, false);
    }

    predicate Breaks(price: real)
      reads this
    {
      plan.Some? && BreaksCycle(plan.value, price)
    }
  }

  /** The fired keys as a list without repetitions. */
  method ListKeys(fired: set<TriggerKey>) returns (keys: seq<TriggerKey>)
    ensures KeySet(keys) == fired && |keys| == |fired|
  {
    keys := [];
    var todo, listed := fired, {};
    while todo != {}
      invariant todo !! listed && todo + listed == fired
      invariant KeySet(keys) == listed && |keys| == |listed|
      decreases todo
    {
      hide KeySet;
      var key :| key in todo;
      KeySetAppend(keys, key);
      keys, todo, listed := keys + [key], todo - {key}, listed + {key};
    }
  }

  lemma KeySetAppend(keys: seq<TriggerKey>, key: TriggerKey)
    ensures KeySet(keys + [key]) == KeySet(keys) + {key}
  {
    forall k
      ensures k in KeySet(keys + [key]) <==> k in KeySet(keys) + {key}
    {
      if k in KeySet(keys) {
        var i :| 0 <= i < |keys| && keys[i] == k;
        assert (keys + [key])[i] == k;
      }
      assert (keys + [key])[|keys|] == key;
    }
  }
}
