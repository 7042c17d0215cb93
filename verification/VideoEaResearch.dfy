/**
  Research summaries of a plan: the whipsaw stress count over a price path and the exposure heat
  map, both of which must agree with the cycle runtime.
 */
module VideoEaResearch {
  import opened Domain
  import opened VideoEaPlanner
  import opened VideoEaRuntime
  import opened VideoEaEmission

  // ---------------------------------------------------------------- whipsaw

  predicate AllPositive(prices: seq<real>) {
    forall i :: 0 <= i < |prices| ==> prices[i] > 0.0
  }

  /** A runtime armed at the first price and shown the others. */
  function PathRun(plan: Plan, prices: seq<real>): Session
    requires |prices| > 0
  {
    if |prices| == 1 then Next(START, ArmEvent(plan, prices[0]))
    else Next(PathRun(plan, prices[..|prices| - 1]), PriceEvent(prices[|prices| - 1]))
  }

  /** Every crossing of every move, repeated ones included. */
  function PathCrossings(triggers: seq<Trigger>, prices: seq<real>): nat {
    if |prices| <= 1 then 0
    else PathCrossings(triggers, prices[..|prices| - 1])
         + |Activated(triggers, prices[|prices| - 2], prices[|prices| - 1])|
  }

  lemma PathRunAppend(plan: Plan, prices: seq<real>, price: real)
    requires |prices| > 0
    ensures var s, after := PathRun(plan, prices), PathRun(plan, prices + [price]);
            after.cycle == PriceStep(s.cycle, price) && after.emitted == s.emitted + Emits(s.cycle, price)
    ensures PathCrossings(plan.triggers, prices + [price])
            == PathCrossings(plan.triggers, prices) + |Activated(plan.triggers, prices[|prices| - 1], price)|
  {
    hide PriceStep, Emits, Accepts, Activated;
    var all := prices + [price];
    assert all[..|all| - 1] == prices;
  }

  /** Along a path the runtime stays armed, active or invalidated, and an open one remembers the latest price. */
  lemma {:induction false} PathRunOk(plan: Plan, prices: seq<real>)
    requires |prices| > 0 && CanArm(IDLE_CYCLE, plan, prices[0]) && AllPositive(prices)
    ensures var s := PathRun(plan, prices);
            && SessionOk(s) && EmissionOk(s) && s.cycle.plan == Some(plan)
            && (s.cycle.state.Armed? || s.cycle.state.Active? || s.cycle.state.Invalidated?)
            && (!s.cycle.state.Invalidated? ==> s.cycle.lastPrice == Some(prices[|prices| - 1]))
  {
    if |prices| == 1 {
      NothingEmitted(IDLE_CYCLE, []);
      ArmedOk(START, plan, prices[0]);
      NextEmissionOk(START, ArmEvent(plan, prices[0]));
    } else {
      var init := prices[..|prices| - 1];
      PathRunOk(plan, init);
      hide SessionOk, EmissionOk, Fresh, Keys;
      NextOk(PathRun(plan, init), PriceEvent(prices[|prices| - 1]));
      PriceEmissionOk(PathRun(plan, init), prices[|prices| - 1]);
    }
  }

  lemma {:induction false} FreshNotMore(triggers: seq<Trigger>, previous: real, current: real, fired: set<TriggerKey>)
    ensures |Fresh(triggers, previous, current, fired)| <= |Activated(triggers, previous, current)|
  {
    if |triggers| > 0 {
      FreshNotMore(triggers[..|triggers| - 1], previous, current, fired);
    }
  }

  /** A path step never emits more than it activates. */
  lemma EmitsWithinActivated(plan: Plan, prices: seq<real>, price: real)
    requires |prices| > 0 && CanArm(IDLE_CYCLE, plan, prices[0]) && AllPositive(prices)
    ensures |Emits(PathRun(plan, prices).cycle, price)| <= |Activated(plan.triggers, prices[|prices| - 1], price)|
  {
    PathRunOk(plan, prices);
    var c := PathRun(plan, prices).cycle;
    FreshNotMore(plan.triggers, prices[|prices| - 1], price, c.fired);
    hide PathRun, SessionOk, Fresh, Activated;
  }

  lemma KeysAppend(triggers: seq<Trigger>, t: Trigger)
    ensures Keys(triggers + [t]) == Keys(triggers) + {t.key}
  {
    KeysConcat(triggers, [t]);
    assert [t][0].key in Keys([t]);
    assert Keys([t]) == {t.key};
  }

  lemma DistinctAppendIff(triggers: seq<Trigger>, t: Trigger)
    ensures DistinctKeys(triggers + [t]) <==> DistinctKeys(triggers) && t.key !in Keys(triggers)
  {
    var all := triggers + [t];
    assert forall i :: 0 <= i < |triggers| ==> all[i] == triggers[i];
    if DistinctKeys(all) {
      forall i | 0 <= i < |triggers|
        ensures triggers[i].key != t.key
      {
        assert all[i].key != all[|triggers|].key;
      }
    } else {
      var i, j :| 0 <= i < j < |all| && all[i].key == all[j].key;
      assert j == |triggers| ==> triggers[i].key in Keys(triggers);
    }
  }

  /** A list has as many keys as entries exactly when its keys are distinct. */
  lemma {:induction false} KeyCount(triggers: seq<Trigger>)
    ensures |Keys(triggers)| <= |triggers|
    ensures |Keys(triggers)| == |triggers| <==> DistinctKeys(triggers)
  {
    if |triggers| == 0 {
      assert Keys(triggers) == {};
    } else {
      var init, last := triggers[..|triggers| - 1], triggers[|triggers| - 1];
      assert triggers == init + [last];
      KeyCount(init);
      KeysAppend(init, last);
      DistinctAppendIff(init, last);
      hide Keys, DistinctKeys;
      assert last.key in Keys(init) ==> Keys(init) + {last.key} == Keys(init);
    }
  }

  /** The counters after a path, in terms of the runtime's session. */
  ghost predicate Tally(plan: Plan, prices: seq<real>, attempted: nat, duplicates: nat, keys: set<TriggerKey>,
                        maxQuantity: nat)
    requires |prices| > 0
  {
    var s := PathRun(plan, prices);
    && attempted == PathCrossings(plan.triggers, prices) == |s.emitted| + duplicates
    && keys == Keys(s.emitted)
    && maxQuantity == FiredQuantity(plan.triggers, s.cycle.fired)
  }

  lemma TallyStart(plan: Plan, price: real)
    requires CanArm(IDLE_CYCLE, plan, price)
    ensures Tally(plan, [price], 0, 0, {}, 0)
    ensures PathRun(plan, [price]).cycle == ArmCycle(IDLE_CYCLE, plan, price)
  {
    NothingFired(plan.triggers);
    assert Keys([]) == {};
  }

  /** One more price moves every counter as the loop does. */
  lemma TallyStep(plan: Plan, prices: seq<real>, price: real, attempted: nat, duplicates: nat, keys: set<TriggerKey>,
                  maxQuantity: nat)
    requires |prices| > 0 && CanArm(IDLE_CYCLE, plan, prices[0]) && AllPositive(prices)
    requires Tally(plan, prices, attempted, duplicates, keys, maxQuantity)
    ensures var c := PathRun(plan, prices).cycle;
            var activated, more := Activated(plan.triggers, prices[|prices| - 1], price), Emits(c, price);
            var quantity := FiredQuantity(plan.triggers, PriceStep(c, price).fired);
            && |more| <= |activated| && quantity >= maxQuantity
            && PathRun(plan, prices + [price]).cycle == PriceStep(c, price)
            && Tally(plan, prices + [price], attempted + |activated|, duplicates + (|activated| - |more|),
                     keys + Keys(more), quantity)
  {
    hide PathRun, PathCrossings, Activated, Emits, PriceStep, FiredQuantity, Keys, AllPositive, CanArm;
    var s := PathRun(plan, prices);
    PathRunAppend(plan, prices, price);
    EmitsWithinActivated(plan, prices, price);
    OnlyGrows(s.cycle, price);
    MoreFiredMoreQuantity(plan.triggers, s.cycle.fired, PriceStep(s.cycle, price).fired);
    KeysConcat(s.emitted, Emits(s.cycle, price));
  }

  function Surplus(a: nat, b: nat): nat {
    if a > b then a - b else 0
  }

  function Larger(a: nat, b: nat): nat {
    if a >= b then a else b
  }

  /** The counters after the first n prices, all of them positive, with the runtime where its session is. */
  ghost predicate Observed(plan: Plan, prices: seq<real>, n: nat, c: Cycle, attempted: nat, duplicates: nat,
                           keys: set<TriggerKey>, maxQuantity: nat)
  {
    && 1 <= n <= |prices| && CanArm(IDLE_CYCLE, plan, prices[0]) && AllPositive(prices[..n])
    && c == PathRun(plan, prices[..n]).cycle
    && Tally(plan, prices[..n], attempted, duplicates, keys, maxQuantity)
  }

  lemma ObservedStart(plan: Plan, prices: seq<real>)
    requires |prices| > 0 && CanArm(IDLE_CYCLE, plan, prices[0])
    ensures Observed(plan, prices, 1, ArmCycle(IDLE_CYCLE, plan, prices[0]), 0, 0, {}, 0)
  {
    TallyStart(plan, prices[0]);
    assert prices[..1] == [prices[0]];
    hide PathRun, Tally, ArmCycle;
  }

  lemma ObservedStep(plan: Plan, prices: seq<real>, n: nat, c: Cycle, attempted: nat, duplicates: nat,
                     keys: set<TriggerKey>, maxQuantity: nat)
    requires Observed(plan, prices, n, c, attempted, duplicates, keys, maxQuantity) && n < |prices| && prices[n] > 0.0
    ensures 1 <= n
    ensures var activated, more := Activated(plan.triggers, prices[n - 1], prices[n]), Emits(c, prices[n]);
            var quantity := FiredQuantity(plan.triggers, PriceStep(c, prices[n]).fired);
            && |more| <= |activated| && quantity >= maxQuantity
            && Observed(plan, prices, n + 1, PriceStep(c, prices[n]), attempted + |activated|,
                        duplicates + (|activated| - |more|), keys + Keys(more), quantity)
  {
    hide PathRun, Tally, Activated, Emits, PriceStep, FiredQuantity, Keys, CanArm;
    assert prices[..n + 1] == prices[..n] + [prices[n]];
    TallyStep(plan, prices[..n], prices[n], attempted, duplicates, keys, maxQuantity);
  }

  lemma ObservedAll(plan: Plan, prices: seq<real>, c: Cycle, attempted: nat, duplicates: nat, keys: set<TriggerKey>,
                    maxQuantity: nat)
    requires Observed(plan, prices, |prices|, c, attempted, duplicates, keys, maxQuantity)
    ensures |prices| > 0 && AllPositive(prices) && c == PathRun(plan, prices).cycle
    ensures Tally(plan, prices, attempted, duplicates, keys, maxQuantity)
  {
    hide PathRun, Tally;
    assert prices[..|prices|] == prices;
  }

  /** The loop body: activate against the previous price, show the runtime the new one, and count. */
  method ObservePrice(runtime: VideoEaCycleRuntime, plan: Plan, prices: seq<real>, n: nat, attempted: nat,
                      duplicates: nat, keys: set<TriggerKey>, maxQuantity: nat)
      returns (attempted': nat, duplicates': nat, keys': set<TriggerKey>, maxQuantity': nat)
    requires 1 <= n < |prices| && prices[n] > 0.0
    requires Observed(plan, prices, n, runtime.View(), attempted, duplicates, keys, maxQuantity)
    modifies runtime
    ensures Observed(plan, prices, n + 1, runtime.View(), attempted', duplicates', keys', maxQuantity')
  {
    hide Observed, Activated, Emits, PriceStep, FiredQuantity, Keys;
    ObservedStep(plan, prices, n, runtime.View(), attempted, duplicates, keys, maxQuantity);
    var activated := Activate(plan.triggers, prices[n - 1], prices[n]);
    var _, triggers := runtime.OnPrice(prices[n]);
    attempted' := attempted + |activated|;
    duplicates' := duplicates + Surplus(|activated|, |triggers|);
    keys' := keys + Keys(triggers);
    var quantity := CurrentQuantity(plan.triggers, runtime.fired);
    maxQuantity' := Larger(maxQuantity, quantity);
  }

  datatype WhipsawResult = WhipsawResult(
    observations: nat,
    crossings: nat,
    unique: nat,
    duplicates: nat,
    maxFiredQuantity: nat,
    terminalState: CycleState)

  /**
    The whipsaw count. It raises without prices, with a price that is not positive, or with a plan
    that cannot be armed. Otherwise crossings are exactly unique triggers plus duplicates, precisely
    when no key was emitted twice, which a plan with distinct keys guarantees on every path; and
    the largest fired quantity is the final one.
   */
  method SimulateWhipsaw(plan: Plan, prices: seq<real>) returns (result: Option<WhipsawResult>)
    ensures result.None? <==> |prices| == 0 || !CanArm(IDLE_CYCLE, plan, prices[0]) || !AllPositive(prices)
    ensures result.Some? ==>
              var s, r := PathRun(plan, prices), result.value;
              && r.crossings == PathCrossings(plan.triggers, prices)
              && r.crossings == |s.emitted| + r.duplicates
              && r.unique == |Keys(s.emitted)|
              && (r.crossings == r.unique + r.duplicates <==> DistinctKeys(s.emitted))
              && (DistinctKeys(plan.triggers) ==> r.crossings == r.unique + r.duplicates)
              && r.maxFiredQuantity == FiredQuantity(plan.triggers, s.cycle.fired)
              && r.terminalState == s.cycle.state
  {
    if |prices| == 0 {
      return None;
    }
    var runtime := new VideoEaCycleRuntime();
    var armed := runtime.Arm(plan, prices[0]);
    if armed.Raises? {
      return None;
    }
    var done, attempted, duplicates, keys, maxQuantity := ObservePath(runtime, plan, prices);
    if !done {
      return None;
    }
    hide PathRun, Tally, PathCrossings, DistinctKeys, Keys, FiredQuantity;
    TallyMeans(plan, prices, attempted, duplicates, keys, maxQuantity);
    result := Some(WhipsawResult(|prices|, attempted, |keys|, duplicates, maxQuantity, runtime.state));
  }

  /** The loop over the path; it stops at a price that is not positive. */
  method ObservePath(runtime: VideoEaCycleRuntime, plan: Plan, prices: seq<real>)
      returns (done: bool, attempted: nat, duplicates: nat, keys: set<TriggerKey>, maxQuantity: nat)
    requires |prices| > 0 && CanArm(IDLE_CYCLE, plan, prices[0])
    requires runtime.View() == ArmCycle(IDLE_CYCLE, plan, prices[0])
    modifies runtime
    ensures done <==> AllPositive(prices)
    ensures done ==> runtime.View() == PathRun(plan, prices).cycle
    ensures done ==> Tally(plan, prices, attempted, duplicates, keys, maxQuantity)
  {
    attempted, duplicates, maxQuantity, keys := 0, 0, 0, {};
    ObservedStart(plan, prices);
    hide Observed, CanArm, ArmCycle;
    var n := 1;
    while n < |prices|
      invariant 1 <= n <= |prices|
      invariant Observed(plan, prices, n, runtime.View(), attempted, duplicates, keys, maxQuantity)
    {
      if prices[n] <= 0.0 {
        return false, 0, 0, {}, 0;
      }
      attempted, duplicates, keys, maxQuantity :=
        ObservePrice(runtime, plan, prices, n, attempted, duplicates, keys, maxQuantity);
      n := n + 1;
    }
    ObservedAll(plan, prices, runtime.View(), attempted, duplicates, keys, maxQuantity);
    done := true;
  }

  lemma TallyMeans(plan: Plan, prices: seq<real>, attempted: nat, duplicates: nat, keys: set<TriggerKey>,
                   maxQuantity: nat)
    requires |prices| > 0 && CanArm(IDLE_CYCLE, plan, prices[0]) && AllPositive(prices)
    requires Tally(plan, prices, attempted, duplicates, keys, maxQuantity)
    ensures var s := PathRun(plan, prices);
            && attempted == PathCrossings(plan.triggers, prices) == |s.emitted| + duplicates
            && |keys| == |Keys(s.emitted)| && maxQuantity == FiredQuantity(plan.triggers, s.cycle.fired)
            && (attempted == |keys| + duplicates <==> DistinctKeys(s.emitted))
            && (DistinctKeys(plan.triggers) ==> DistinctKeys(s.emitted))
  {
    PathRunOk(plan, prices);
    KeyCount(PathRun(plan, prices).emitted);
    hide PathRun, PathCrossings, FiredQuantity, Keys, DistinctKeys;
  }

  lemma OnlyGrows(c: Cycle, price: real)
    ensures c.fired <= PriceStep(c, price).fired
  {
    hide Emits;
  }

  method CurrentQuantity(triggers: seq<Trigger>, fired: set<TriggerKey>) returns (quantity: nat)
    ensures quantity == FiredQuantity(triggers, fired)
  {
    quantity := 0;
    for i := 0 to |triggers|
      invariant quantity == FiredQuantity(triggers[..i], fired)
    {
      assert triggers[..i + 1][..i] == triggers[..i];
      if triggers[i].key in fired {
        quantity := quantity + triggers[i].quantity;
      }
    }
    assert triggers[..|triggers|] == triggers;
  }

  // ---------------------------------------------------------------- heat map

  /** The closed form: the trigger lies between the anchor and the price, on the side of the bias. */
  predicate HeatCrossed(plan: Plan, t: Trigger, price: real) {
    if plan.bias.Long? then t.side.Buy? && plan.anchor < t.price <= price
    else if plan.bias.Short? then t.side.Sell? && plan.anchor > t.price >= price
    else if t.side.Buy? then plan.anchor < t.price <= price
    else plan.anchor > t.price >= price
  }

  function HeatSum(plan: Plan, triggers: seq<Trigger>, price: real): nat {
    if |triggers| == 0 then 0
    else
      var last := triggers[|triggers| - 1];
      HeatSum(plan, triggers[..|triggers| - 1], price) + if HeatCrossed(plan, last, price) then last.quantity else 0
  }

  function HeatQuantity(plan: Plan, price: real): nat {
    MinInt(HeatSum(plan, plan.triggers, price), plan.maxTotalQuantity)
  }

  /** What the runtime has fired after being armed at the anchor and shown one price. */
  function OneShotQuantity(plan: Plan, price: real): nat {
    FiredQuantity(plan.triggers, PriceStep(ArmCycle(IDLE_CYCLE, plan, plan.anchor), price).fired)
  }

  datatype HeatCell = HeatCell(price: real, quantity: nat, notional: real, exposurePct: real)

  datatype Heatmap = Heatmap(cells: seq<HeatCell>, maxQuantity: nat, maxExposurePct: real)

  function ExposurePct(notional: real, portfolioValue: real): real
    requires portfolioValue > 0.0
  {
    notional / portfolioValue * 100.0
  }

  function HeatNotional(price: real, quantity: nat): real {
    price * quantity as real
  }

  function CellAt(plan: Plan, price: real, portfolioValue: real): HeatCell
    requires portfolioValue > 0.0
  {
    var quantity := HeatQuantity(plan, price);
    var notional := HeatNotional(price, quantity);
    HeatCell(price, quantity, notional, ExposurePct(notional, portfolioValue))
  }

  /**
    A cell in numbers: the notional is price times quantity, and the exposure that notional in percent
    of the portfolio.
   */
  lemma CellInNumbers(plan: Plan, price: real, portfolioValue: real)
    requires portfolioValue > 0.0
    ensures var cell := CellAt(plan, price, portfolioValue);
            && cell.price == price && cell.quantity == HeatQuantity(plan, price)
            && cell.notional == price * cell.quantity as real
            && cell.exposurePct * portfolioValue == cell.notional * 100.0
  {
    var n := HeatNotional(price, HeatQuantity(plan, price));
    var share := n / portfolioValue;
    assert share * portfolioValue == n;
    assert share * 100.0 * portfolioValue == (share * portfolioValue) * 100.0;
    hide HeatQuantity;
  }

  /** The largest quantity and the largest exposure are those of some cells, and no cell exceeds them. */
  ghost predicate AreMaxima(cells: seq<HeatCell>, maxQuantity: nat, maxExposurePct: real) {
    && (forall i :: 0 <= i < |cells| ==> cells[i].quantity <= maxQuantity && cells[i].exposurePct <= maxExposurePct)
    && (exists i :: 0 <= i < |cells| && cells[i].quantity == maxQuantity)
    && (exists i :: 0 <= i < |cells| && cells[i].exposurePct == maxExposurePct)
  }

  lemma MaximaNext(cells: seq<HeatCell>, cell: HeatCell, maxQuantity: nat, maxExposurePct: real)
    requires AreMaxima(cells, maxQuantity, maxExposurePct)
    ensures AreMaxima(cells + [cell], Larger(maxQuantity, cell.quantity), MaxReal(maxExposurePct, cell.exposurePct))
  {
    var all := cells + [cell];
    assert all[|cells|] == cell && forall i :: 0 <= i < |cells| ==> all[i] == cells[i];
    var i :| 0 <= i < |cells| && cells[i].quantity == maxQuantity;
    var j :| 0 <= j < |cells| && cells[j].exposurePct == maxExposurePct;
    assert all[i].quantity == maxQuantity && all[j].exposurePct == maxExposurePct;
  }

  /** One cell per price, in order, with the capped crossed quantity; and the maxima over the cells. */
  method MaxExposureHeatmap(plan: Plan, prices: seq<real>, portfolioValue: real) returns (result: Option<Heatmap>)
    ensures result.None? <==> portfolioValue <= 0.0 || |prices| == 0 || !AllPositive(prices)
    ensures result.Some? ==>
              && |result.value.cells| == |prices|
              && (forall i :: 0 <= i < |prices| ==> result.value.cells[i] == CellAt(plan, prices[i], portfolioValue))
              && AreMaxima(result.value.cells, result.value.maxQuantity, result.value.maxExposurePct)
  {
    if portfolioValue <= 0.0 || |prices| == 0 {
      return None;
    }
    hide CellAt, AreMaxima;
    var cells: seq<HeatCell> := [];
    for i := 0 to |prices|
      invariant |cells| == i && AllPositive(prices[..i])
      invariant forall k :: 0 <= k < i ==> cells[k] == CellAt(plan, prices[k], portfolioValue)
    {
      if prices[i] <= 0.0 {
        return None;
      }
      var cell := MakeCell(plan, prices[i], portfolioValue);
      cells := cells + [cell];
    }
    var maxQuantity, maxExposurePct := CellMaxima(cells);
    result := Some(Heatmap(cells, maxQuantity, maxExposurePct));
  }

  method MakeCell(plan: Plan, price: real, portfolioValue: real) returns (cell: HeatCell)
    requires portfolioValue > 0.0
    ensures cell == CellAt(plan, price, portfolioValue)
  {
    hide HeatSum, ExposurePct, HeatNotional;
    var crossed := SumCrossed(plan, price);
    var quantity: nat := MinInt(crossed, plan.maxTotalQuantity);
    var notional := HeatNotional(price, quantity);
    cell := HeatCell(price, quantity, notional, ExposurePct(notional, portfolioValue));
  }

  method CellMaxima(cells: seq<HeatCell>) returns (maxQuantity: nat, maxExposurePct: real)
    requires |cells| > 0
    ensures AreMaxima(cells, maxQuantity, maxExposurePct)
  {
    maxQuantity, maxExposurePct := cells[0].quantity, cells[0].exposurePct;
    OneCell(cells[0]);
    assert cells[..1] == [cells[0]];
    hide AreMaxima;
    for i := 1 to |cells|
      invariant AreMaxima(cells[..i], maxQuantity, maxExposurePct)
    {
      MaximaNext(cells[..i], cells[i], maxQuantity, maxExposurePct);
      assert cells[..i + 1] == cells[..i] + [cells[i]];
      maxQuantity := Larger(maxQuantity, cells[i].quantity);
      maxExposurePct := MaxReal(maxExposurePct, cells[i].exposurePct);
    }
    assert cells[..|cells|] == cells;
  }

  lemma OneCell(cell: HeatCell)
    ensures AreMaxima([cell], cell.quantity, cell.exposurePct)
  {
    assert [cell][0] == cell;
  }

  method SumCrossed(plan: Plan, price: real) returns (quantity: nat)
    ensures quantity == HeatSum(plan, plan.triggers, price)
  {
    quantity := 0;
    for i := 0 to |plan.triggers|
      invariant quantity == HeatSum(plan, plan.triggers[..i], price)
    {
      assert plan.triggers[..i + 1][..i] == plan.triggers[..i];
      if HeatCrossed(plan, plan.triggers[i], price) {
        quantity := quantity + plan.triggers[i].quantity;
      }
    }
    assert plan.triggers[..|plan.triggers|] == plan.triggers;
  }

  /** If the fired keys are exactly those of the heat-crossed triggers, the two sums agree. */
  lemma {:induction false} HeatSumIsFired(plan: Plan, triggers: seq<Trigger>, price: real, fired: set<TriggerKey>)
    requires forall k :: 0 <= k < |triggers| ==> (triggers[k].key in fired <==> HeatCrossed(plan, triggers[k], price))
    ensures FiredQuantity(triggers, fired) == HeatSum(plan, triggers, price)
  {
    if |triggers| > 0 {
      HeatSumIsFired(plan, triggers[..|triggers| - 1], price, fired);
    }
  }

  /** A directional plan: one side only, in the direction of its bias. */
  ghost predicate Directional(plan: Plan) {
    && (plan.bias.Long? || plan.bias.Short?)
    && (forall k :: 0 <= k < |plan.triggers| ==>
          if plan.bias.Long? then plan.triggers[k].side.Buy? else plan.triggers[k].side.Sell?)
    && (forall k :: 0 <= k < |plan.triggers| ==> plan.triggers[k].price > 0.0 && plan.triggers[k].quantity > 0)
    && DistinctKeys(plan.triggers) && TotalQuantity(plan.triggers) <= plan.maxTotalQuantity
    && CanArm(IDLE_CYCLE, plan, plan.anchor)
  }

  lemma HeatWithinCap(plan: Plan, price: real)
    requires Directional(plan)
    ensures HeatQuantity(plan, price) == HeatSum(plan, plan.triggers, price)
  {
    HeatWithinTotal(plan, plan.triggers, price);
  }

  lemma {:induction false} HeatWithinTotal(plan: Plan, triggers: seq<Trigger>, price: real)
    ensures HeatSum(plan, triggers, price) <= TotalQuantity(triggers)
  {
    if |triggers| > 0 {
      HeatWithinTotal(plan, triggers[..|triggers| - 1], price);
    }
  }

  /** The keys that one shot fires: those of the triggers between the anchor and an accepted price, none otherwise. */
  lemma OneShotFired(plan: Plan, price: real, k: nat)
    requires Directional(plan) && price > 0.0 && k < |plan.triggers|
    ensures plan.triggers[k].key in PriceStep(ArmCycle(IDLE_CYCLE, plan, plan.anchor), price).fired
            <==> !BreaksCycle(plan, price) && HeatCrossed(plan, plan.triggers[k], price)
  {
    FreshKeys(plan.triggers, plan.anchor, price, {}, plan.triggers[k].key);
    hide Fresh;
  }

  /** Off the invalidated region the closed form is the runtime's fired quantity. */
  lemma AgreesWhenAccepted(plan: Plan, price: real)
    requires Directional(plan) && price > 0.0 && !BreaksCycle(plan, price)
    ensures HeatQuantity(plan, price) == OneShotQuantity(plan, price)
  {
    var fired := PriceStep(ArmCycle(IDLE_CYCLE, plan, plan.anchor), price).fired;
    forall k | 0 <= k < |plan.triggers|
      ensures plan.triggers[k].key in fired <==> HeatCrossed(plan, plan.triggers[k], price)
    {
      OneShotFired(plan, price, k);
    }
    hide PriceStep, HeatCrossed, BreaksCycle;
    HeatSumIsFired(plan, plan.triggers, price, fired);
    HeatWithinCap(plan, price);
  }

  /** On the invalidated region the runtime fires nothing. */
  lemma BrokenFiresNothing(plan: Plan, price: real)
    requires Directional(plan) && price > 0.0 && BreaksCycle(plan, price)
    ensures OneShotQuantity(plan, price) == 0
  {
    NothingFired(plan.triggers);
  }

  lemma {:induction false} NoHeat(plan: Plan, triggers: seq<Trigger>, price: real)
    requires forall k :: 0 <= k < |triggers| ==> triggers[k].quantity > 0
    ensures HeatSum(plan, triggers, price) == 0 <==>
              forall k :: 0 <= k < |triggers| ==> !HeatCrossed(plan, triggers[k], price)
  {
    if |triggers| > 0 {
      var init := triggers[..|triggers| - 1];
      NoHeat(plan, init, price);
      assert forall k :: 0 <= k < |init| ==> triggers[k] == init[k];
    }
  }

  /** No trigger beyond the anchor lies where the cycle would already be invalidated. */
  ghost predicate Unobstructed(plan: Plan) {
    forall k :: 0 <= k < |plan.triggers| && HeatCrossed(plan, plan.triggers[k], plan.triggers[k].price)
      ==> !BreaksCycle(plan, plan.triggers[k].price)
  }

  lemma AgreesAt(plan: Plan, price: real)
    requires Directional(plan) && Unobstructed(plan) && price > 0.0
    ensures HeatQuantity(plan, price) == OneShotQuantity(plan, price)
  {
    if BreaksCycle(plan, price) {
      BrokenFiresNothing(plan, price);
      forall k | 0 <= k < |plan.triggers|
        ensures !HeatCrossed(plan, plan.triggers[k], price)
      {
        assert HeatCrossed(plan, plan.triggers[k], price) ==>
                 HeatCrossed(plan, plan.triggers[k], plan.triggers[k].price);
      }
      NoHeat(plan, plan.triggers, price);
    } else {
      AgreesWhenAccepted(plan, price);
    }
  }

  /**
    Main result: for a directional plan the heat map agrees with the runtime at every positive price,
    including prices that invalidate the cycle, exactly when no trigger beyond the anchor lies in
    the invalidated region.
   */
  lemma HeatmapAgreesIff(plan: Plan)
    requires Directional(plan)
    ensures (forall price :: price > 0.0 ==> HeatQuantity(plan, price) == OneShotQuantity(plan, price)) <==>
               Unobstructed(plan)
  {
    if Unobstructed(plan) {
      forall price | price > 0.0
        ensures HeatQuantity(plan, price) == OneShotQuantity(plan, price)
      {
        AgreesAt(plan, price);
      }
    } else {
      var k :| 0 <= k < |plan.triggers| && HeatCrossed(plan, plan.triggers[k], plan.triggers[k].price)
               && BreaksCycle(plan, plan.triggers[k].price);
      var price := plan.triggers[k].price;
      BrokenFiresNothing(plan, price);
      NoHeat(plan, plan.triggers, price);
      HeatWithinCap(plan, price);
      hide HeatQuantity, OneShotQuantity;
      assert HeatQuantity(plan, price) != OneShotQuantity(plan, price);
    }
  }

  /** A plan without a direction: it has no invalidation in effect and trades both ways. */
  ghost predicate BothWays(plan: Plan) {
    && plan.bias.Neutral? && DistinctKeys(plan.triggers) && TotalQuantity(plan.triggers) <= plan.maxTotalQuantity
    && (forall k :: 0 <= k < |plan.triggers| ==> plan.triggers[k].side.Buy? || plan.triggers[k].side.Sell?)
    && CanArm(IDLE_CYCLE, plan, plan.anchor)
  }

  /** For a plan without a direction the heat map is the runtime's answer at every positive price. */
  lemma NeutralHeatmapAgrees(plan: Plan, price: real)
    requires BothWays(plan) && price > 0.0
    ensures HeatQuantity(plan, price) == OneShotQuantity(plan, price)
  {
    var fired := PriceStep(ArmCycle(IDLE_CYCLE, plan, plan.anchor), price).fired;
    forall k | 0 <= k < |plan.triggers|
      ensures plan.triggers[k].key in fired <==> HeatCrossed(plan, plan.triggers[k], price)
    {
      FreshKeys(plan.triggers, plan.anchor, price, {}, plan.triggers[k].key);
      hide Fresh;
    }
    hide PriceStep, HeatCrossed;
    HeatSumIsFired(plan, plan.triggers, price, fired);
    HeatWithinTotal(plan, plan.triggers, price);
  }

  /**
    The heat map never shows more than the plan's total, and shows the crossed quantity as long as
    that is within it.
   */
  lemma HeatIsCapped(plan: Plan, price: real)
    ensures HeatQuantity(plan, price) <= plan.maxTotalQuantity
    ensures HeatSum(plan, plan.triggers, price) <= plan.maxTotalQuantity ==>
              HeatQuantity(plan, price) == HeatSum(plan, plan.triggers, price)
    ensures HeatSum(plan, plan.triggers, price) > plan.maxTotalQuantity ==>
              HeatQuantity(plan, price) == plan.maxTotalQuantity
  {
  }

  lemma RungsPositive(r: Request)
    requires r.config.Valid() && HasLadder(r)
    ensures forall k :: 0 <= k < |MakePlan(r).triggers| ==>
              MakePlan(r).triggers[k].price > 0.0 && MakePlan(r).triggers[k].quantity > 0
              && MakePlan(r).triggers[k].side in Sides(r.config, r.bias)
  {
    PlanLadder(r);
    var sides := Sides(r.config, r.bias);
    LadderShape(r.config, r.symbol, r.lastClose, GridStep(r.config, r.atr.value), sides, Levels(r.config, |sides|));
    hide MakePlan, Ladder, GridStep, Levels, Ticks, TickPrice, WithinBand;
  }

  lemma PlanFlags(r: Request)
    requires r.config.Valid() && r.config.gridMode.PaFiltered? && HasLadder(r)
    ensures var plan := MakePlan(r);
            && !r.bias.Neutral? && plan.bias == r.bias && plan.anchor == r.lastClose
            && plan.researchOnly && !plan.executable
  {
    hide Ladder, GridStep, Invalidation, Levels, WithinBand;
  }

  /** A PA-filtered request, at a positive close, that yields triggers. */
  ghost predicate YieldsLadder(r: Request)
    requires r.config.Valid()
  {
    r.config.gridMode.PaFiltered? && HasLadder(r) && r.lastClose > 0.0
  }

  /** A PA-filtered plan with triggers is directional. */
  lemma PlannerPlanDirectional(r: Request)
    requires r.config.Valid()
    ensures YieldsLadder(r) ==> Directional(MakePlan(r))
  {
    hide MakePlan, DistinctKeys, TotalQuantity;
    if YieldsLadder(r) {
      PlanWithinCaps(r);
      RungsPositive(r);
      PlanFlags(r);
    }
  }

  /**
    The requests whose first rung lies where the cycle is already invalidated: LONG with a zone, a
    close below half a tick, a grid step of one tick, and one tick within the price band.
   */
  predicate ObstructedRequest(r: Request)
    requires r.config.Valid()
  {
    && r.bias.Long? && r.zone.Some? && r.atr.Some?
    && r.lastClose < r.config.tickSize / 2.0
    && GridStep(r.config, r.atr.value) == r.config.tickSize
    && WithinBand(r.config.tickSize, r.config)
  }

  /** The one trigger that can be obstructed is a BUY rung at one tick of a LONG plan with a zone. */
  lemma BreaksAtRungIff(r: Request, k: nat)
    requires r.config.Valid() && r.config.gridMode.PaFiltered? && HasLadder(r) && r.lastClose > 0.0
    requires k < |MakePlan(r).triggers|
    ensures var t := MakePlan(r).triggers[k];
            && (HeatCrossed(MakePlan(r), t, t.price) && BreaksCycle(MakePlan(r), t.price) <==>
                r.bias.Long? && r.zone.Some? && t.price == r.config.tickSize)
            && (r.bias.Long? && t.price == r.config.tickSize ==>
                  r.lastClose < r.config.tickSize / 2.0 && GridStep(r.config, r.atr.value) == r.config.tickSize
                  && WithinBand(r.config.tickSize, r.config))
  {
    PlanLadder(r);
    PlanFlags(r);
    var cfg, sides := r.config, Sides(r.config, r.bias);
    LadderShape(cfg, r.symbol, r.lastClose, GridStep(cfg, r.atr.value), sides, Levels(cfg, |sides|));
    var t := MakePlan(r).triggers[k];
    RungSide(cfg, r.lastClose, r.atr.value, t.side, t.level);
    if r.zone.Some? {
      InvalidationSide(cfg, r.lastClose, r.atr.value, r.bias, r.zone);
      LongInvalidationFloor(cfg, r.lastClose, r.atr.value, r.zone);
    }
    if r.bias.Long? {
      BuyRungAtOneTickIff(cfg, r.lastClose, r.atr.value, t.level);
    }
    hide MakePlan, Ladder, Levels, GridStep, RungPrice, WithinBand, HasLadder;
  }

  /** An obstructed request that yields triggers. */
  ghost predicate ObstructedPlan(r: Request)
    requires r.config.Valid()
  {
    YieldsLadder(r) && ObstructedRequest(r)
  }

  lemma ObstructedRung(r: Request)
    requires r.config.Valid()
    ensures ObstructedPlan(r) ==>
              exists k :: 0 <= k < |MakePlan(r).triggers| && MakePlan(r).triggers[k].price == r.config.tickSize
  {
    if ObstructedPlan(r) {
      PlanLadder(r);
      PlanFlags(r);
      var cfg, step := r.config, GridStep(r.config, r.atr.value);
      var levels := Levels(cfg, 1);
      LadderOfSides(cfg, r.symbol, r.lastClose, step, levels);
      assert MakePlan(r).triggers == Rungs(cfg, r.symbol, r.lastClose, step, Buy, levels);
      assert levels >= 1;
      hide MakePlan, Levels, GridStep, RungPrice, WithinBand, Ladder;
      BuyRungAtOneTickIff(cfg, r.lastClose, r.atr.value, 1);
      RungsContain(cfg, r.symbol, r.lastClose, step, Buy, levels, 1);
    }
  }

  lemma PlannerUnobstructedIff(r: Request)
    requires r.config.Valid()
    ensures YieldsLadder(r) ==> (Unobstructed(MakePlan(r)) <==> !ObstructedRequest(r))
  {
    hide MakePlan, GridStep, WithinBand, HasLadder, BreaksCycle, HeatCrossed;
    if YieldsLadder(r) {
      PlanLadder(r);
      forall k | 0 <= k < |MakePlan(r).triggers|
        ensures var t := MakePlan(r).triggers[k];
                HeatCrossed(MakePlan(r), t, t.price) && BreaksCycle(MakePlan(r), t.price) ==> ObstructedRequest(r)
      {
        BreaksAtRungIff(r, k);
      }
      if ObstructedRequest(r) {
        ObstructedRung(r);
        var k :| 0 <= k < |MakePlan(r).triggers| && MakePlan(r).triggers[k].price == r.config.tickSize;
        BreaksAtRungIff(r, k);
      }
    }
  }

  /**
    Main result for the planner: the heat map of a PA-filtered plan is the runtime's answer at every
    positive price, including prices that invalidate the cycle, exactly when the request is not
    obstructed. Every anchor of at least half a tick qualifies.
   */
  lemma PlannerHeatmapAgreesIff(r: Request)
    requires r.config.Valid()
    ensures YieldsLadder(r) ==>
              ((forall price :: price > 0.0 ==> HeatQuantity(MakePlan(r), price) == OneShotQuantity(MakePlan(r), price))
               <==> !ObstructedRequest(r))
  {
    PlannerPlanDirectional(r);
    hide MakePlan, Directional, HeatQuantity, OneShotQuantity, Unobstructed, ObstructedRequest, YieldsLadder;
    PlannerUnobstructedIff(r);
    if YieldsLadder(r) {
      HeatmapAgreesIff(MakePlan(r));
    }
  }

  /** The same at one price, for every anchor of at least half a tick. */
  lemma PlannerHeatmapAgrees(r: Request, price: real)
    requires r.config.Valid() && price > 0.0 && r.lastClose >= r.config.tickSize / 2.0
    ensures YieldsLadder(r) ==> HeatQuantity(MakePlan(r), price) == OneShotQuantity(MakePlan(r), price)
  {
    PlannerHeatmapAgreesIff(r);
    hide MakePlan, HeatQuantity, OneShotQuantity, HasLadder;
  }

  /** The triggers of a PA-filtered plan with its anchor above one tick can all be shown without ending the cycle. */
  lemma PlannerTriggersWatchable(r: Request, k: nat)
    requires r.config.Valid() && r.config.gridMode.PaFiltered? && HasLadder(r) && r.lastClose > r.config.tickSize
    requires k < |MakePlan(r).triggers|
    ensures Watchable(MakePlan(r), MakePlan(r).triggers[k])
  {
    PlannerPlanDirectional(r);
    PlanAroundAnchor(r);
    hide MakePlan, HasLadder, DistinctKeys, TotalQuantity;
  }

  /**
    For a PA-filtered plan with its anchor above one tick, a snapshot is safe to restore exactly when
    it lists what was emitted.
   */
  lemma PlannerRestoreIsSafeIff(r: Request, events: seq<Event>, snap: Snapshot)
    requires r.config.Valid() && r.config.gridMode.PaFiltered? && HasLadder(r) && r.lastClose > r.config.tickSize
    requires CoveringRestores(events) && !Refuses(snap)
    requires snap.state.Armed? || snap.state.Active? || snap.state.Paused?
    requires snap.plan == Some(MakePlan(r)) == Run(events).cycle.plan
    ensures NeverRepeats(Next(Run(events), RestoreEvent(snap)))
            <==> Keys(Run(events).emitted) <= KeySet(snap.firedKeys)
  {
    PlanWithinCaps(r);
    hide MakePlan, HasLadder, Watchable, DistinctKeys, Run, NeverRepeats, Keys, KeySet, Refuses, Next;
    forall k | 0 <= k < |snap.plan.value.triggers|
      ensures Watchable(snap.plan.value, snap.plan.value.triggers[k])
    {
      PlannerTriggersWatchable(r, k);
    }
    RestoreIsSafeIff(events, snap);
  }

  /**
    Where an obstructed request goes wrong: at one tick the heat map shows an exposure that the
    runtime never takes.
   */
  lemma ObstructedDisagrees(r: Request)
    requires r.config.Valid()
    ensures ObstructedPlan(r) ==>
              && HeatQuantity(MakePlan(r), r.config.tickSize) > 0
              && OneShotQuantity(MakePlan(r), r.config.tickSize) == 0
  {
    var plan, price := MakePlan(r), r.config.tickSize;
    ObstructedRung(r);
    if ObstructedPlan(r) {
      hide MakePlan, HasLadder, GridStep, WithinBand, BreaksCycle, HeatCrossed, OneShotQuantity;
      var k :| 0 <= k < |plan.triggers| && plan.triggers[k].price == price;
      BreaksAtRungIff(r, k);
      PlannerPlanDirectional(r);
      BrokenFiresNothing(plan, price);
      NoHeat(plan, plan.triggers, price);
      HeatWithinCap(plan, price);
      hide HeatQuantity;
    }
  }

  /** An obstructed request: one tick is 1, the step is one tick, and the market closed at a quarter of a tick. */
  function ObstructedExample(): Request {
    Request("TEST", 100, 0.25, Some(1.0), Long, Some(Zone(0.1, 0.2)), true,
            Config(PaFiltered, GenericResearch, 2, 14, 1.0, Some(1.0), 1.0, None, None, 1, 1, 1, 1, 1.0, 1.0))
  }

  /** The example is a valid request with a trigger. */
  lemma ObstructedExampleHolds()
    ensures ObstructedExample().config.Valid() && ObstructedPlan(ObstructedExample())
  {
    var r := ObstructedExample();
    var cfg := r.config;
    assert GridStep(cfg, 1.0) == 1.0;
    LadderOfSides(cfg, r.symbol, 0.25, 1.0, 1);
    var rung := Rung(cfg, r.symbol, 0.25, 1.0, Buy, 1);
    assert rung.price == 1.0;
    assert Rungs(cfg, r.symbol, 0.25, 1.0, Buy, 0) == [];
    assert Rungs(cfg, r.symbol, 0.25, 1.0, Buy, 1) == [rung];
    assert Levels(cfg, 1) == 1;
    hide GridStep, Rungs, Levels, Rung, Ladder, Invalidation;
  }

  /** There is a request and a price where heat map and runtime differ. */
  lemma HeatmapCanDisagree()
    ensures exists r: Request, price ::
              && r.config.Valid() && r.config.gridMode.PaFiltered? && HasLadder(r) && r.lastClose > 0.0 && price > 0.0
              && HeatQuantity(MakePlan(r), price) != OneShotQuantity(MakePlan(r), price)
  {
    hide ObstructedExample, ObstructedRequest, HasLadder, MakePlan, HeatQuantity, OneShotQuantity;
    ObstructedExampleHolds();
    ObstructedDisagrees(ObstructedExample());
    var r := ObstructedExample();
    assert r.config.tickSize > 0.0;
  }
}
