/**
  What a trigger cycle hands out over whole runs, whatever snapshots are restored on the way: when
  no key is emitted twice, how much is emitted, and which snapshots are safe to restore.
 */
module VideoEaEmission {
  import opened Domain
  import opened VideoEaPlanner
  import opened VideoEaRuntime

  // ---------------------------------------------------------------- quantities

  lemma {:induction false} NothingFired(triggers: seq<Trigger>)
    ensures FiredQuantity(triggers, {}) == 0
  {
    if |triggers| > 0 {
      NothingFired(triggers[..|triggers| - 1]);
    }
  }

  lemma {:induction false} TotalConcat(a: seq<Trigger>, b: seq<Trigger>)
    ensures TotalQuantity(a + b) == TotalQuantity(a) + TotalQuantity(b)
  {
    if |b| == 0 {
      assert a + b == a;
    } else {
      TotalConcat(a, b[..|b| - 1]);
      assert (a + b)[..|a + b| - 1] == a + b[..|b| - 1];
    }
  }

  lemma {:induction false} FiredWithinTotal(triggers: seq<Trigger>, fired: set<TriggerKey>)
    ensures FiredQuantity(triggers, fired) <= TotalQuantity(triggers)
  {
    if |triggers| > 0 {
      FiredWithinTotal(triggers[..|triggers| - 1], fired);
    }
  }

  /** The quantities of two disjoint sets of keys add up. */
  lemma {:induction false} FiredUnion(triggers: seq<Trigger>, a: set<TriggerKey>, b: set<TriggerKey>)
    requires a !! b
    ensures FiredQuantity(triggers, a + b) == FiredQuantity(triggers, a) + FiredQuantity(triggers, b)
  {
    if |triggers| > 0 {
      FiredUnion(triggers[..|triggers| - 1], a, b);
    }
  }

  lemma {:induction false} MoreFiredMoreQuantity(triggers: seq<Trigger>, before: set<TriggerKey>,
                                                 after: set<TriggerKey>)
    requires before <= after
    ensures FiredQuantity(triggers, before) <= FiredQuantity(triggers, after)
  {
    if |triggers| > 0 {
      MoreFiredMoreQuantity(triggers[..|triggers| - 1], before, after);
    }
  }

  /** If "after" holds exactly the keys fired before or crossed now, the fired quantity grows by the fresh triggers. */
  lemma {:induction false} FiredGrows(triggers: seq<Trigger>, previous: real, current: real, fired: set<TriggerKey>,
                                      after: set<TriggerKey>)
    requires forall k :: 0 <= k < |triggers| ==>
               (triggers[k].key in after <==> triggers[k].key in fired || Crossed(triggers[k], previous, current))
    ensures FiredQuantity(triggers, after)
            == FiredQuantity(triggers, fired) + TotalQuantity(Fresh(triggers, previous, current, fired))
  {
    if |triggers| > 0 {
      var init, last := triggers[..|triggers| - 1], triggers[|triggers| - 1];
      FiredGrows(init, previous, current, fired, after);
      hide Crossed;
      var before := Fresh(init, previous, current, fired);
      if Crossed(last, previous, current) && last.key !in fired {
        assert (before + [last])[..|before|] == before;
      } else {
        assert before + [] == before;
      }
    }
  }

  lemma {:induction false} FreshDistinct(triggers: seq<Trigger>, previous: real, current: real, fired: set<TriggerKey>)
    requires DistinctKeys(triggers)
    ensures DistinctKeys(Fresh(triggers, previous, current, fired))
  {
    if |triggers| > 0 {
      var init := triggers[..|triggers| - 1];
      FreshDistinct(init, previous, current, fired);
      FreshMembers(init, previous, current, fired);
      hide Crossed;
    }
  }

  /** What a move emits is the planned quantity of the emitted keys. */
  lemma FreshQuantity(triggers: seq<Trigger>, previous: real, price: real, fired: set<TriggerKey>)
    requires DistinctKeys(triggers)
    ensures var more := Fresh(triggers, previous, price, fired);
            TotalQuantity(more) == FiredQuantity(triggers, Keys(more))
  {
    var more := Fresh(triggers, previous, price, fired);
    hide Fresh, Crossed, FiredQuantity, TotalQuantity;
    forall k | 0 <= k < |triggers|
      ensures triggers[k].key in fired + Keys(more) <==>
                triggers[k].key in fired || Crossed(triggers[k], previous, price)
    {
      FreshKeys(triggers, previous, price, fired, triggers[k].key);
    }
    FiredGrows(triggers, previous, price, fired, fired + Keys(more));
    FreshNotFired(triggers, previous, price, fired);
    FiredUnion(triggers, fired, Keys(more));
  }

  /** Lists without repetitions stay so when they are joined exactly when they share no key. */
  lemma DistinctConcatIff(a: seq<Trigger>, b: seq<Trigger>)
    requires DistinctKeys(a) && DistinctKeys(b)
    ensures DistinctKeys(a + b) <==> Keys(a) !! Keys(b)
  {
    if Keys(a) !! Keys(b) {
      DistinctConcat(a, b);
    } else {
      var key :| key in Keys(a) && key in Keys(b);
      SharedKey(a, b, key);
    }
    hide DistinctKeys, Keys;
  }

  lemma DistinctConcat(a: seq<Trigger>, b: seq<Trigger>)
    requires DistinctKeys(a) && DistinctKeys(b) && Keys(a) !! Keys(b)
    ensures DistinctKeys(a + b)
  {
    assert forall i :: 0 <= i < |a| ==> a[i].key in Keys(a);
    assert forall i :: 0 <= i < |b| ==> b[i].key in Keys(b);
    hide Keys;
  }

  lemma SharedKey(a: seq<Trigger>, b: seq<Trigger>, key: TriggerKey)
    requires key in Keys(a) && key in Keys(b)
    ensures !DistinctKeys(a + b)
  {
    var i :| 0 <= i < |a| && a[i].key == key;
    var j :| 0 <= j < |b| && b[j].key == key;
    assert (a + b)[i].key == (a + b)[|a| + j].key;
  }

  /** A move emits new keys only and accounts for their quantity, if everything emitted so far counts as fired. */
  lemma EmissionStep(triggers: seq<Trigger>, previous: real, price: real, fired: set<TriggerKey>, emitted: seq<Trigger>)
    requires Keys(emitted) <= fired && DistinctKeys(triggers) && DistinctKeys(emitted)
    requires TotalQuantity(emitted) == FiredQuantity(triggers, Keys(emitted))
    ensures var more := Fresh(triggers, previous, price, fired);
            && DistinctKeys(emitted + more)
            && TotalQuantity(emitted + more) == FiredQuantity(triggers, Keys(emitted + more))
  {
    var more := Fresh(triggers, previous, price, fired);
    FreshDistinct(triggers, previous, price, fired);
    FreshNotFired(triggers, previous, price, fired);
    FreshQuantity(triggers, previous, price, fired);
    TotalConcat(emitted, more);
    KeysConcat(emitted, more);
    DistinctConcatIff(emitted, more);
    FiredUnion(triggers, Keys(emitted), Keys(more));
  }

  // ---------------------------------------------------------------- covering restores

  /** The snapshot lists every key emitted since the cycle was armed, and does not swap the plan under them. */
  ghost predicate Covers(snap: Snapshot, s: Session) {
    && Keys(s.emitted) <= KeySet(snap.firedKeys)
    && (snap.plan == s.cycle.plan || s.emitted == [])
  }

  /** Every snapshot that the run accepts covers what was emitted before it. */
  ghost predicate CoveringRestores(events: seq<Event>) {
    forall i :: 0 <= i < |events| && events[i].RestoreEvent? && !Refuses(events[i].snap) ==>
      Covers(events[i].snap, Run(events[..i]))
  }

  /**
    What was emitted counts as fired; under distinct planned keys no key was emitted twice and the
    quantity is theirs.
   */
  ghost predicate EmissionOk(s: Session) {
    && WellFormed(s.cycle)
    && Keys(s.emitted) <= s.cycle.fired
    && (s.cycle.plan.Some? && DistinctKeys(s.cycle.plan.value.triggers) ==>
          && DistinctKeys(s.emitted)
          && TotalQuantity(s.emitted) == FiredQuantity(s.cycle.plan.value.triggers, Keys(s.emitted)))
  }

  lemma NothingEmitted(c: Cycle, prices: seq<real>)
    requires WellFormed(c)
    ensures EmissionOk(Session(c, prices, []))
  {
    assert Keys([]) == {};
    if c.plan.Some? {
      NothingFired(c.plan.value.triggers);
    }
  }

  lemma PriceEmissionOk(s: Session, price: real)
    requires EmissionOk(s)
    ensures EmissionOk(Next(s, PriceEvent(price)))
  {
    hide Fresh, DistinctKeys, TotalQuantity, FiredQuantity, Keys, BreaksCycle;
    if Accepts(s.cycle, price) {
      var triggers := s.cycle.plan.value.triggers;
      KeysConcat(s.emitted, Emits(s.cycle, price));
      FreshNotFired(triggers, s.cycle.lastPrice.value, price, s.cycle.fired);
      if DistinctKeys(triggers) {
        EmissionStep(triggers, s.cycle.lastPrice.value, price, s.cycle.fired, s.emitted);
      }
    } else {
      assert s.emitted + [] == s.emitted;
    }
  }

  lemma RestoreEmissionOk(s: Session, snap: Snapshot)
    requires EmissionOk(s) && !Refuses(snap) && Covers(snap, s)
    ensures EmissionOk(Next(s, RestoreEvent(snap)))
  {
    RestoredWellFormed(snap);
    if s.emitted == [] {
      NothingEmitted(Restored(snap), s.prices);
    }
    hide DistinctKeys, TotalQuantity, FiredQuantity, Keys, KeySet, WellFormed, Refuses;
  }

  lemma NextEmissionOk(s: Session, e: Event)
    requires EmissionOk(s)
    requires e.RestoreEvent? && !Refuses(e.snap) ==> Covers(e.snap, s)
    ensures EmissionOk(Next(s, e))
  {
    match e {
      case ArmEvent(plan, price) =>
        if CanArm(s.cycle, plan, price) {
          NothingEmitted(ArmCycle(s.cycle, plan, price), [price]);
        }
      case PriceEvent(price) => PriceEmissionOk(s, price);
      case RestoreEvent(snap) =>
        if !Refuses(snap) {
          RestoreEmissionOk(s, snap);
        }
      case ResetEvent => NothingEmitted(IDLE_CYCLE, []);
      case _ => hide DistinctKeys, TotalQuantity, FiredQuantity, Keys;
    }
  }

  lemma {:induction false} EveryRunEmissionOk(events: seq<Event>)
    requires CoveringRestores(events)
    ensures EmissionOk(Run(events))
  {
    if |events| == 0 {
      NothingEmitted(IDLE_CYCLE, []);
    } else {
      var init := events[..|events| - 1];
      assert forall i :: 0 <= i < |init| ==> init[i] == events[i] && init[..i] == events[..i];
      EveryRunEmissionOk(init);
      hide EmissionOk, Next;
      NextEmissionOk(Run(init), events[|events| - 1]);
    }
  }

  /**
    Main result: between one arming and the next, for a plan with distinct keys and restores that
    cover what was emitted, each key is emitted at most once and the emitted quantity is the planned
    quantity of the emitted keys, which is within the fired quantity and the plan's total.
   */
  lemma EmittedAtMostOnce(events: seq<Event>)
    requires CoveringRestores(events)
    requires Run(events).cycle.plan.Some? && DistinctKeys(Run(events).cycle.plan.value.triggers)
    ensures var s := Run(events);
            var triggers := s.cycle.plan.value.triggers;
            && DistinctKeys(s.emitted)
            && TotalQuantity(s.emitted) == FiredQuantity(triggers, Keys(s.emitted))
               <= FiredQuantity(triggers, s.cycle.fired) <= TotalQuantity(triggers)
  {
    EveryRunEmissionOk(events);
    var s := Run(events);
    MoreFiredMoreQuantity(s.cycle.plan.value.triggers, Keys(s.emitted), s.cycle.fired);
    FiredWithinTotal(s.cycle.plan.value.triggers, s.cycle.fired);
    hide Run;
  }

  /** For a planner-built plan the emitted quantity never exceeds the configured cap. */
  lemma EmittedWithinCap(events: seq<Event>, r: Request)
    requires CoveringRestores(events) && r.config.Valid() && Run(events).cycle.plan == Some(MakePlan(r))
    ensures DistinctKeys(Run(events).emitted)
    ensures TotalQuantity(Run(events).emitted) <= r.config.maxTotalQuantity
  {
    PlanWithinCaps(r);
    EmittedAtMostOnce(events);
  }

  /** A snapshot of the cycle as it stands covers what was emitted. */
  lemma CurrentRestoresCover(events: seq<Event>)
    requires CurrentRestores(events)
    ensures CoveringRestores(events)
  {
    forall i | 0 <= i < |events| && events[i].RestoreEvent? && !Refuses(events[i].snap)
      ensures Covers(events[i].snap, Run(events[..i]))
    {
      var init := events[..i];
      assert forall j :: 0 <= j < |init| ==> init[j] == events[j] && init[..j] == events[..j];
      EveryRunOk(init);
      hide Tracks, WellFormed, Refuses, Run;
    }
  }

  /** When every restore is of the cycle as it stands, the emitted quantity is the fired quantity. */
  lemma EmittedIsFired(events: seq<Event>)
    requires CurrentRestores(events)
    requires Run(events).cycle.plan.Some? && DistinctKeys(Run(events).cycle.plan.value.triggers)
    ensures var s := Run(events);
            && Keys(s.emitted) == s.cycle.fired
            && TotalQuantity(s.emitted) == FiredQuantity(s.cycle.plan.value.triggers, s.cycle.fired)
  {
    CurrentRestoresCover(events);
    EmittedAtMostOnce(events);
    EveryRunOk(events);
    hide Run, Tracks;
  }

  // ---------------------------------------------------------------- which snapshots are safe

  /** A snapshot taken right after arming. */
  function ArmedSnapshot(plan: Plan, price: real): Snapshot {
    Snapshot.Snapshot(Armed, Some(plan.symbol), Some(plan), Some(price), [], 0, 0.0, false)
  }

  lemma ArmedSnapshotDescribes(plan: Plan, price: real)
    requires CanArm(IDLE_CYCLE, plan, price)
    ensures Describes(ArmedSnapshot(plan, price), ArmCycle(IDLE_CYCLE, plan, price))
    ensures !Refuses(ArmedSnapshot(plan, price))
    ensures Restored(ArmedSnapshot(plan, price)) == ArmCycle(IDLE_CYCLE, plan, price)
  {
    NothingFired(plan.triggers);
    assert KeySet([]) == {};
  }

  lemma RunAppend(events: seq<Event>, e: Event)
    ensures Run(events + [e]) == Next(Run(events), e)
  {
    assert (events + [e])[..|events|] == events;
    hide Next;
  }

  /** What a freshly armed cycle emits at its first accepted price. */
  lemma FirstEmission(s: Session, plan: Plan, a: real, b: real)
    requires s.cycle == Cycle(Armed, Some(plan), Some(a), {}, 0.0) && b > 0.0 && !BreaksCycle(plan, b)
    ensures var after := Next(s, PriceEvent(b));
            after.emitted == s.emitted + Fresh(plan.triggers, a, b, {}) && after.cycle.plan == Some(plan)
  {
    hide Fresh, BreaksCycle, Keys;
  }

  /**
    The failing run: arm, cross a trigger, restore the snapshot taken at arming, and cross it again.
    The trigger is emitted twice, for every plan that can be armed.
   */
  lemma StaleSnapshotRepeats(plan: Plan, a: real, b: real, k: nat)
    requires CanArm(IDLE_CYCLE, plan, a) && b > 0.0 && !BreaksCycle(plan, b)
    requires k < |plan.triggers| && Crossed(plan.triggers[k], a, b)
    ensures var snap := ArmedSnapshot(plan, a);
            var armed := [ArmEvent(plan, a)];
            var events := armed + [PriceEvent(b)] + [RestoreEvent(snap)] + [PriceEvent(b)];
            && Describes(snap, Run(armed).cycle)
            && Run(events).cycle.plan == Some(plan)
            && !DistinctKeys(Run(events).emitted)
  {
    var snap := ArmedSnapshot(plan, a);
    var armed := [ArmEvent(plan, a)];
    ArmedSnapshotDescribes(plan, a);
    RunAppend([], ArmEvent(plan, a));
    assert [] + armed == armed;
    var cycle := ArmCycle(IDLE_CYCLE, plan, a);
    assert cycle == Cycle(Armed, Some(plan), Some(a), {}, 0.0);
    assert Run(armed) == Session(cycle, [a], []);
    RunAppend(armed, PriceEvent(b));
    RunAppend(armed + [PriceEvent(b)], RestoreEvent(snap));
    RunAppend(armed + [PriceEvent(b)] + [RestoreEvent(snap)], PriceEvent(b));
    FirstEmission(Run(armed), plan, a, b);
    assert Next(Run(armed + [PriceEvent(b)]), RestoreEvent(snap)) == Run(armed + [PriceEvent(b)]).(cycle := cycle);
    FirstEmission(Run(armed + [PriceEvent(b)] + [RestoreEvent(snap)]), plan, a, b);
    EmittedTwice(plan.triggers, a, b, k);
    hide Run, Next, Fresh, Describes, Refuses, ArmedSnapshot, BreaksCycle, DistinctKeys, Crossed;
    assert [] + Fresh(plan.triggers, a, b, {}) == Fresh(plan.triggers, a, b, {});
  }

  lemma EmittedTwice(triggers: seq<Trigger>, a: real, b: real, k: nat)
    requires k < |triggers| && Crossed(triggers[k], a, b)
    ensures !DistinctKeys(Fresh(triggers, a, b, {}) + Fresh(triggers, a, b, {}))
  {
    FreshMembers(triggers, a, b, {});
    var once := Fresh(triggers, a, b, {});
    hide Fresh, Crossed;
    var i :| 0 <= i < |once| && once[i] == triggers[k];
    assert (once + once)[i] == (once + once)[|once| + i];
  }

  /** An emitted trigger that the snapshot does not list is crossed by an accepted move. */
  ghost predicate RepeatsOn(emitted: seq<Trigger>, c: Cycle, price: real) {
    && Accepts(c, price)
    && exists k :: 0 <= k < |c.plan.value.triggers| && c.plan.value.triggers[k].key in Keys(emitted)
                   && c.plan.value.triggers[k].key !in c.fired
                   && Crossed(c.plan.value.triggers[k], c.lastPrice.value, price)
  }

  /** One price repeats a key exactly when it crosses an emitted trigger that does not count as fired. */
  lemma NextEmissionDistinctIff(s: Session, price: real)
    requires DistinctKeys(s.emitted)
    requires s.cycle.plan.Some? ==> DistinctKeys(s.cycle.plan.value.triggers)
    ensures DistinctKeys(Next(s, PriceEvent(price)).emitted) <==> !RepeatsOn(s.emitted, s.cycle, price)
  {
    var c := s.cycle;
    hide Fresh, Crossed, Keys, BreaksCycle;
    if Accepts(c, price) {
      var triggers := c.plan.value.triggers;
      FreshDistinct(triggers, c.lastPrice.value, price, c.fired);
      DistinctConcatIff(s.emitted, Emits(c, price));
      forall key
        ensures key in Keys(Emits(c, price)) <==>
                key !in c.fired && exists k :: 0 <= k < |triggers| && triggers[k].key == key
                                               && Crossed(triggers[k], c.lastPrice.value, price)
      {
        FreshKeys(triggers, c.lastPrice.value, price, c.fired, key);
      }
      hide DistinctKeys, Emits;
    } else {
      assert s.emitted + [] == s.emitted;
    }
  }

  /**
    The next emission after a restore repeats a key exactly when an accepted move crosses an emitted
    trigger that the snapshot does not list.
   */
  lemma RestoredEmissionDistinctIff(s: Session, snap: Snapshot, price: real)
    requires DistinctKeys(s.emitted) && !Refuses(snap) && snap.plan.Some? && DistinctKeys(snap.plan.value.triggers)
    ensures var triggers := snap.plan.value.triggers;
            DistinctKeys(Next(Next(s, RestoreEvent(snap)), PriceEvent(price)).emitted) <==>
            !(Accepts(Restored(snap), price)
              && exists k :: 0 <= k < |triggers| && triggers[k].key in Keys(s.emitted)
                             && triggers[k].key !in KeySet(snap.firedKeys)
                             && Crossed(triggers[k], snap.lastPrice.value, price))
  {
    NextEmissionDistinctIff(Next(s, RestoreEvent(snap)), price);
    hide DistinctKeys, Keys, KeySet, Crossed, Refuses;
  }

  /** A continuation within the same cycle: prices, basket results, pauses and resumptions. */
  predicate Undisturbed(steps: seq<Event>) {
    forall i :: 0 <= i < |steps| ==> !steps[i].ArmEvent? && !steps[i].ResetEvent? && !steps[i].RestoreEvent?
  }

  function Follow(s: Session, steps: seq<Event>): Session {
    if |steps| == 0 then s else Next(Follow(s, steps[..|steps| - 1]), steps[|steps| - 1])
  }

  /** Whatever happens within the cycle, no key is emitted twice. */
  ghost predicate NeverRepeats(s: Session) {
    forall steps :: Undisturbed(steps) ==> DistinctKeys(Follow(s, steps).emitted)
  }

  /** The price of the trigger can be shown without ending the cycle. */
  predicate Watchable(plan: Plan, t: Trigger) {
    (t.side.Buy? || t.side.Sell?) && t.price > 0.0 && !BreaksCycle(plan, t.price)
  }

  /** A price on the near side of the trigger that does not end the cycle. */
  function NearSide(plan: Plan, t: Trigger): real {
    if t.side.Buy? then
      (if plan.invalidation.Some? && plan.bias.Long? then (MaxReal(0.0, plan.invalidation.value) + t.price) / 2.0
       else t.price / 2.0)
    else if plan.invalidation.Some? && plan.bias.Short? then (t.price + plan.invalidation.value) / 2.0
    else t.price + 1.0
  }

  lemma NearSideWorks(plan: Plan, t: Trigger)
    requires Watchable(plan, t)
    ensures NearSide(plan, t) > 0.0 && !BreaksCycle(plan, NearSide(plan, t))
    ensures Crossed(t, NearSide(plan, t), t.price)
    ensures forall previous :: !Crossed(t, previous, NearSide(plan, t))
  {
  }

  predicate OpenCycle(c: Cycle) {
    c.plan.Some? && c.lastPrice.Some? && (c.state.Armed? || c.state.Active?)
  }

  /** Going to the near side of a trigger does not fire it. */
  lemma ApproachKeepsUnfired(s: Session, k: nat)
    requires OpenCycle(s.cycle)
    requires var plan := s.cycle.plan.value;
             k < |plan.triggers| && Watchable(plan, plan.triggers[k]) && DistinctKeys(plan.triggers)
             && plan.triggers[k].key !in s.cycle.fired
    ensures var t := s.cycle.plan.value.triggers[k];
            var near := NearSide(s.cycle.plan.value, t);
            var one := Next(s, PriceEvent(near));
            && OpenCycle(one.cycle) && one.cycle.plan == s.cycle.plan && one.cycle.lastPrice == Some(near)
            && t.key !in one.cycle.fired && one.emitted == s.emitted + Emits(s.cycle, near)
  {
    var plan := s.cycle.plan.value;
    var t := plan.triggers[k];
    NearSideWorks(plan, t);
    FreshKeys(plan.triggers, s.cycle.lastPrice.value, NearSide(plan, t), s.cycle.fired, t.key);
    hide BreaksCycle, NearSide, Fresh, Crossed, Keys;
  }

  /** Crossing a trigger that does not count as fired emits it. */
  lemma CrossingEmits(s: Session, k: nat, price: real)
    requires OpenCycle(s.cycle) && price > 0.0 && !BreaksCycle(s.cycle.plan.value, price)
    requires k < |s.cycle.plan.value.triggers|
    requires var t := s.cycle.plan.value.triggers[k];
             t.key !in s.cycle.fired && Crossed(t, s.cycle.lastPrice.value, price)
    ensures s.cycle.plan.value.triggers[k] in Emits(s.cycle, price)
    ensures Next(s, PriceEvent(price)).emitted == s.emitted + Emits(s.cycle, price)
  {
    FreshMembers(s.cycle.plan.value.triggers, s.cycle.lastPrice.value, price, s.cycle.fired);
    hide Fresh, BreaksCycle, Crossed, Keys;
  }

  /** The steps that lead a cycle to emit a trigger: resume if need be, go to its near side, and cross it. */
  function Provoke(plan: Plan, t: Trigger): seq<Event> {
    [ResumeEvent, PriceEvent(NearSide(plan, t)), PriceEvent(t.price)]
  }

  predicate Resumable(c: Cycle) {
    c.plan.Some? && c.lastPrice.Some? && (c.state.Armed? || c.state.Active? || c.state.Paused?)
  }

  lemma ResumeOpens(s: Session)
    requires Resumable(s.cycle)
    ensures var open := Next(s, ResumeEvent);
            && OpenCycle(open.cycle) && open.emitted == s.emitted
            && open.cycle.plan == s.cycle.plan && open.cycle.fired == s.cycle.fired
  {
  }

  /** A cycle that is open or paused can be led to emit any watchable trigger that does not count as fired. */
  lemma CanBeEmitted(s: Session, k: nat)
    requires Resumable(s.cycle)
    requires var plan := s.cycle.plan.value;
             k < |plan.triggers| && Watchable(plan, plan.triggers[k]) && DistinctKeys(plan.triggers)
             && plan.triggers[k].key !in s.cycle.fired
    ensures var plan := s.cycle.plan.value;
            var emitted := Follow(s, Provoke(plan, plan.triggers[k])).emitted;
            s.emitted <= emitted && plan.triggers[k] in emitted[|s.emitted|..]
  {
    hide BreaksCycle, NearSide, Crossed, Follow, Next, Emits, DistinctKeys;
    var plan := s.cycle.plan.value;
    var t := plan.triggers[k];
    var near := NearSide(plan, t);
    var open := Next(s, ResumeEvent);
    var one := Next(open, PriceEvent(near));
    FollowThree(s, ResumeEvent, PriceEvent(near), PriceEvent(t.price));
    ResumeOpens(s);
    assert Follow(s, Provoke(plan, t)) == Next(one, PriceEvent(t.price));
    ApproachKeepsUnfired(open, k);
    NearSideWorks(plan, t);
    CrossingEmits(one, k, t.price);
    EmittedBehind(s.emitted, Emits(open.cycle, near), Emits(one.cycle, t.price), t);
  }

  lemma EmittedBehind(before: seq<Trigger>, first: seq<Trigger>, more: seq<Trigger>, t: Trigger)
    requires t in more
    ensures before <= before + first + more && t in (before + first + more)[|before|..]
  {
    assert before + first + more == before + (first + more);
    assert (before + (first + more))[|before|..] == first + more;
  }

  lemma FollowThree(s: Session, a: Event, b: Event, c: Event)
    ensures Follow(s, [a, b, c]) == Next(Next(Next(s, a), b), c)
  {
    assert [a, b, c][..2] == [a, b] && [a, b][..1] == [a] && [a][..0] == [];
    hide Next;
    assert Follow(s, []) == s;
    assert Follow(s, [a]) == Next(s, a);
    assert Follow(s, [a, b]) == Next(Next(s, a), b);
  }

  lemma StepKeepsPlan(s: Session, e: Event)
    requires !e.ArmEvent? && !e.ResetEvent? && !e.RestoreEvent?
    ensures Next(s, e).cycle.plan == s.cycle.plan
  {
  }

  lemma {:induction false} FollowEmissionOk(s: Session, steps: seq<Event>)
    requires EmissionOk(s) && Undisturbed(steps)
    ensures EmissionOk(Follow(s, steps)) && Follow(s, steps).cycle.plan == s.cycle.plan
  {
    hide EmissionOk, Next;
    if |steps| > 0 {
      var init, last := steps[..|steps| - 1], steps[|steps| - 1];
      FollowEmissionOk(s, init);
      NextEmissionOk(Follow(s, init), last);
      StepKeepsPlan(Follow(s, init), last);
    }
  }

  /** The accepted snapshot of the cycle's own plan is open or paused, and the plan's triggers are all watchable. */
  ghost predicate Reopens(s: Session, snap: Snapshot) {
    && !Refuses(snap) && snap.plan.Some? && snap.plan == s.cycle.plan
    && (snap.state.Armed? || snap.state.Active? || snap.state.Paused?)
    && DistinctKeys(snap.plan.value.triggers)
    && forall k :: 0 <= k < |snap.plan.value.triggers| ==> Watchable(snap.plan.value, snap.plan.value.triggers[k])
  }

  lemma SameKeyTwice(before: seq<Trigger>, emitted: seq<Trigger>, t: Trigger)
    requires before <= emitted && t.key in Keys(before) && t in emitted[|before|..]
    ensures !DistinctKeys(emitted)
  {
    var i :| 0 <= i < |before| && before[i].key == t.key;
    var j :| |before| <= j < |emitted| && emitted[j] == t;
    assert emitted[i] == before[i] && emitted[i].key == emitted[j].key;
  }

  lemma UnlistedRepeats(s: Session, snap: Snapshot, key: TriggerKey)
    requires EmissionOk(s) && Reopens(s, snap) && key in Keys(s.emitted) && key !in KeySet(snap.firedKeys)
    ensures !NeverRepeats(Next(s, RestoreEvent(snap)))
  {
    var plan := snap.plan.value;
    assert key in Keys(plan.triggers);
    var k :| 0 <= k < |plan.triggers| && plan.triggers[k].key == key;
    var restored := Next(s, RestoreEvent(snap));
    assert restored.emitted == s.emitted && Resumable(restored.cycle);
    hide Watchable, Keys, KeySet, DistinctKeys, Follow, Next, EmissionOk, Refuses;
    CanBeEmitted(restored, k);
    var steps := Provoke(plan, plan.triggers[k]);
    SameKeyTwice(s.emitted, Follow(restored, steps).emitted, plan.triggers[k]);
    assert Undisturbed(steps);
  }

  lemma CoveredNeverRepeats(s: Session, snap: Snapshot, steps: seq<Event>)
    requires EmissionOk(s) && Reopens(s, snap) && Keys(s.emitted) <= KeySet(snap.firedKeys) && Undisturbed(steps)
    ensures DistinctKeys(Follow(Next(s, RestoreEvent(snap)), steps).emitted)
  {
    RestoreEmissionOk(s, snap);
    FollowEmissionOk(Next(s, RestoreEvent(snap)), steps);
    hide Follow, DistinctKeys, Keys, KeySet, Watchable;
  }

  /**
    Main result: after every run, restoring an accepted snapshot of the cycle's plan, open or paused, is
    safe, in that no continuation within the cycle makes it emit a key twice, exactly when the snapshot
    lists every key that was emitted since arming.
   */
  lemma RestoreIsSafeIff(events: seq<Event>, snap: Snapshot)
    requires CoveringRestores(events) && Reopens(Run(events), snap)
    ensures NeverRepeats(Next(Run(events), RestoreEvent(snap)))
            <==> Keys(Run(events).emitted) <= KeySet(snap.firedKeys)
  {
    var s := Run(events);
    EveryRunEmissionOk(events);
    hide Run, Follow, DistinctKeys, Keys, KeySet, EmissionOk, Reopens, Next, Undisturbed;
    if Keys(s.emitted) <= KeySet(snap.firedKeys) {
      forall steps | Undisturbed(steps)
        ensures DistinctKeys(Follow(Next(s, RestoreEvent(snap)), steps).emitted)
      {
        CoveredNeverRepeats(s, snap, steps);
      }
    } else {
      var key :| key in Keys(s.emitted) && key !in KeySet(snap.firedKeys);
      UnlistedRepeats(s, snap, key);
    }
  }
}
