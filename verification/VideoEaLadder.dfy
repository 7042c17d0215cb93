/**
  Which triggers a plan has, exactly: the ladder is complete up to the caps and holds nothing else. Prices
  are characterised as nearest ticks, and everything else by the fields of the request.
 */
module VideoEaLadder {
  import opened Domain
  import opened Arithmetic
  import opened VideoEaPlanner

  // ---------------------------------------------------------------- nearest ticks

  /** The price is the multiple of the tick nearest to the value, halves going up, but at least one tick. */
  ghost predicate NearestTick(price: real, value: real, tick: real) {
    exists n: int :: IsNearest(n, value, tick) && price == AtLeastOneTick(n, tick)
  }

  predicate IsNearest(n: int, value: real, tick: real) {
    value - tick / 2.0 < Multiple(n, tick) <= value + tick / 2.0
  }

  function Multiple(n: int, tick: real): real {
    n as real * tick
  }

  function AtLeastOneTick(n: int, tick: real): real {
    if n >= 1 then Multiple(n, tick) else tick
  }

  lemma ScaledOrder(a: real, b: real, tick: real)
    requires tick > 0.0
    ensures a * tick <= b * tick <==> a <= b
    ensures a * tick < b * tick <==> a < b
  {
    var d := b - a;
    assert b * tick == a * tick + d * tick;
    if d > 0.0 {
      PositiveProduct(d, tick);
    } else if d < 0.0 {
      PositiveProduct(-d, tick);
      assert (-d) * tick == -(d * tick);
    }
  }

  /** The nearest number of ticks is the floor of the ratio plus a half. */
  lemma NearestIsFloor(n: int, value: real, tick: real)
    requires tick > 0.0
    ensures IsNearest(n, value, tick) <==> n == (value / tick + 0.5).Floor
  {
    var x := value / tick;
    QuotientTimes(value, tick);
    var low, high := x - 0.5, x + 0.5;
    assert low * tick == value - tick / 2.0 && high * tick == value + tick / 2.0;
    ScaledOrder(low, n as real, tick);
    ScaledOrder(n as real, high, tick);
    assert Multiple(n, tick) == n as real * tick;
    hide Multiple;
    assert IsNearest(n, value, tick) <==> low < n as real <= high;
  }

  lemma FloorPrice(n: int, tick: real)
    requires tick > 0.0
    ensures AtLeastOneTick(n, tick) == MaxReal(tick, TickPrice(n, tick))
  {
    MaxOfTicks(n, tick);
    assert Multiple(n, tick) == TickPrice(n, tick) && TickPrice(1, tick) == tick;
    hide TickPrice, Multiple;
  }

  /** Rounding gives the nearest tick and nothing else is nearest. */
  lemma RoundIsNearest(price: real, value: real, tick: real)
    requires tick > 0.0
    ensures NearestTick(price, value, tick) <==> price == RoundToTick(value, tick)
  {
    var n := Ticks(value, tick);
    NearestIsFloor(n, value, tick);
    FloorPrice(n, tick);
    hide IsNearest, Multiple, AtLeastOneTick, TickPrice;
    if NearestTick(price, value, tick) {
      var m: int :| IsNearest(m, value, tick) && price == AtLeastOneTick(m, tick);
      NearestIsFloor(m, value, tick);
      assert m == n;
    }
    assert IsNearest(n, value, tick);
  }

  // ---------------------------------------------------------------- the request in words

  /** Within the band, as far as it is bounded. */
  predicate Between(price: real, low: Option<real>, high: Option<real>) {
    match low
    case Some(l) => l <= price && (match high case Some(h) => price <= h case None => true)
    case None => (match high case Some(h) => price <= h case None => true)
  }

  /** Enough bars, a positive range and a close within the band. */
  predicate Plannable(r: Request) {
    && r.bars >= r.config.atrPeriod + 2 && r.bars >= 2 * r.config.pivotWindow + 5
    && r.atr.Some? && r.atr.value > 0.0
    && Between(r.lastClose, r.config.lowerPriceBand, r.config.upperPriceBand)
  }

  /** The sides that the mode, the market and the evidence allow. */
  predicate SideUsed(r: Request, side: Side) {
    match r.config.gridMode
    case PaFiltered =>
      (match r.bias
       case Long => side == Buy
       case Short => side == Sell && r.config.marketProfile != SetEquity
       case Neutral => false)
    case SymmetricResearch => (side == Buy || side == Sell) && r.researchOnly && r.config.marketProfile != SetEquity
  }

  function SideCount(cfg: Config): nat {
    if cfg.gridMode == SymmetricResearch then 2 else 1
  }

  /** The grid step: the configured distance, or the range times its factor, to the nearest tick. */
  ghost predicate StepIs(r: Request, step: real) {
    r.atr.Some? && NearestTick(step, match r.config.gridStepAbs
                                     case Some(distance) => distance
                                     case None => r.atr.value * r.config.gridStepAtr, r.config.tickSize)
  }

  /** How far a rung lies from the anchor. */
  function Away(side: Side, step: real, level: nat): real {
    if side == Sell then -(step * level as real) else step * level as real
  }

  lemma BetweenIs(price: real, cfg: Config)
    ensures Between(price, cfg.lowerPriceBand, cfg.upperPriceBand) <==> WithinBand(price, cfg)
  {
  }

  lemma StepIsGridStep(r: Request, step: real)
    requires r.config.Valid() && StepIs(r, step)
    ensures step == GridStep(r.config, r.atr.value)
  {
    var raw := match r.config.gridStepAbs case Some(d) => d case None => r.atr.value * r.config.gridStepAtr;
    assert raw == RawStep(r.config, r.atr.value);
    RoundIsNearest(step, raw, r.config.tickSize);
    MaxOfTicks(Ticks(raw, r.config.tickSize), r.config.tickSize);
    hide NearestTick, RawStep, Ticks, TickPrice;
  }

  // ---------------------------------------------------------------- the levels

  lemma QuotientIff(l: nat, a: nat, b: nat)
    requires b >= 1
    ensures l <= a / b <==> l * b <= a
  {
    assert b * (a / b) + a % b == a;
    if l <= a / b {
      assert l * b <= (a / b) * b;
    } else {
      assert l * b >= (a / b + 1) * b;
    }
  }

  /** A level fits exactly when the configured number, the cap on triggers and the cap on quantity all allow it. */
  lemma LevelFitsIff(cfg: Config, l: nat, sides: nat)
    requires cfg.quantityPerLevel >= 1 && sides >= 1
    ensures l <= Levels(cfg, sides) <==>
              && l <= cfg.levelsPerSide && l * sides <= cfg.maxPendingTriggers
              && l * sides * cfg.quantityPerLevel <= cfg.maxTotalQuantity
  {
    QuotientIff(l, cfg.maxPendingTriggers, sides);
    QuotientIff(l, cfg.maxTotalQuantity / cfg.quantityPerLevel, sides);
    QuotientIff(l * sides, cfg.maxTotalQuantity, cfg.quantityPerLevel);
  }

  /** The trigger of a side and level. */
  ghost predicate HasTrigger(triggers: seq<Trigger>, side: Side, level: nat) {
    exists i :: 0 <= i < |triggers| && triggers[i].side == side && triggers[i].level == level
  }

  lemma RungsHave(cfg: Config, symbol: Symbol, anchor: real, step: real, side: Side, n: nat, other: Side, level: nat)
    requires cfg.tickSize > 0.0
    ensures HasTrigger(Rungs(cfg, symbol, anchor, step, side, n), other, level) <==>
              other == side && 1 <= level <= n && WithinBand(RungPrice(cfg, anchor, step, side, level), cfg)
  {
    var rungs := Rungs(cfg, symbol, anchor, step, side, n);
    RungsShape(cfg, symbol, anchor, step, side, n);
    if 1 <= level <= n && WithinBand(RungPrice(cfg, anchor, step, side, level), cfg) {
      RungsContain(cfg, symbol, anchor, step, side, n, level);
      var i :| 0 <= i < |rungs| && rungs[i] == Rung(cfg, symbol, anchor, step, side, level);
    }
    hide RungPrice, WithinBand, Rungs;
  }

  lemma {:induction false} ConcatHas(a: seq<Trigger>, b: seq<Trigger>, side: Side, level: nat)
    ensures HasTrigger(a + b, side, level) <==> HasTrigger(a, side, level) || HasTrigger(b, side, level)
  {
    if HasTrigger(a, side, level) {
      var i :| 0 <= i < |a| && a[i].side == side && a[i].level == level;
      assert (a + b)[i] == a[i];
    }
    if HasTrigger(b, side, level) {
      var i :| 0 <= i < |b| && b[i].side == side && b[i].level == level;
      assert (a + b)[|a| + i] == b[i];
    }
  }

  lemma LadderHas(cfg: Config, symbol: Symbol, anchor: real, step: real, sides: seq<Side>, n: nat, side: Side,
                  level: nat)
    requires cfg.tickSize > 0.0 && (sides == [Buy] || sides == [Sell] || sides == [Buy, Sell])
    ensures HasTrigger(Ladder(cfg, symbol, anchor, step, sides, n), side, level) <==>
              side in sides && 1 <= level <= n && WithinBand(RungPrice(cfg, anchor, step, side, level), cfg)
  {
    LadderOfSides(cfg, symbol, anchor, step, n);
    RungsHave(cfg, symbol, anchor, step, Buy, n, side, level);
    RungsHave(cfg, symbol, anchor, step, Sell, n, side, level);
    ConcatHas(Rungs(cfg, symbol, anchor, step, Buy, n), Rungs(cfg, symbol, anchor, step, Sell, n), side, level);
    hide Rungs, Ladder, RungPrice, WithinBand, HasTrigger;
  }

  /** The request yields a ladder exactly when it is plannable and some side is used. */
  predicate Unblocked(r: Request) {
    Plannable(r) && (SideUsed(r, Buy) || SideUsed(r, Sell))
  }

  lemma PlanIsLadder(r: Request)
    requires r.config.Valid()
    ensures !Unblocked(r) ==> MakePlan(r).triggers == [] && MakePlan(r).invalidation.None?
    ensures Unblocked(r) ==>
              var sides, step := Sides(r.config, r.bias), GridStep(r.config, r.atr.value);
              && |sides| == SideCount(r.config) && (sides == [Buy] || sides == [Sell] || sides == [Buy, Sell])
              && (forall side :: side in sides <==> SideUsed(r, side))
              && MakePlan(r).triggers == Ladder(r.config, r.symbol, r.lastClose, step, sides, Levels(r.config, |sides|))
              && MakePlan(r).invalidation == Invalidation(r.config, r.lastClose, r.atr.value, step, r.bias, r.zone)
              && MakePlan(r).gridStep == step && MakePlan(r).bias == r.bias && MakePlan(r).atr == r.atr.value
              && MakePlan(r).zone == r.zone
  {
    BetweenIs(r.lastClose, r.config);
    hide Ladder, GridStep, Invalidation, Levels, Between, WithinBand;
  }

  /**
    Main result: the ladder is complete and holds nothing else. A side and level have their trigger in the
    plan exactly when the request is plannable, the side is used, the level is among those configured and
    under both caps, and its price, the nearest tick to its distance from the close, lies in the band.
   */
  lemma TriggerIff(r: Request, side: Side, level: nat, step: real, price: real)
    requires r.config.Valid() && StepIs(r, step)
    requires side == Buy || side == Sell
    requires NearestTick(price, r.lastClose + Away(side, step, level), r.config.tickSize)
    ensures HasTrigger(MakePlan(r).triggers, side, level) <==>
              && Plannable(r) && SideUsed(r, side) && 1 <= level <= r.config.levelsPerSide
              && level * SideCount(r.config) <= r.config.maxPendingTriggers
              && level * SideCount(r.config) * r.config.quantityPerLevel <= r.config.maxTotalQuantity
              && Between(price, r.config.lowerPriceBand, r.config.upperPriceBand)
  {
    var cfg := r.config;
    StepIsGridStep(r, step);
    RoundIsNearest(price, r.lastClose + Away(side, step, level), cfg.tickSize);
    assert Away(side, step, level) == Offset(side, step, level);
    assert price == RungPrice(cfg, r.lastClose, step, side, level);
    PlanIsLadder(r);
    BetweenIs(price, cfg);
    hide MakePlan, Ladder, GridStep, RungPrice, NearestTick, Between, WithinBand, StepIs, Levels, HasTrigger, Plannable;
    if Unblocked(r) {
      var sides := Sides(cfg, r.bias);
      LadderHas(cfg, r.symbol, r.lastClose, step, sides, Levels(cfg, |sides|), side, level);
      LevelFitsIff(cfg, level, |sides|);
    } else {
      NoTriggers(side, level);
    }
  }

  lemma NoTriggers(side: Side, level: nat)
    ensures !HasTrigger([], side, level)
  {
  }

  /** Every trigger of a plan carries its nearest tick, the configured quantity and its own key. */
  lemma TriggerTerms(r: Request, i: nat, step: real)
    requires r.config.Valid() && StepIs(r, step) && i < |MakePlan(r).triggers|
    ensures var t := MakePlan(r).triggers[i];
            && (t.side == Buy || t.side == Sell) && t.quantity == r.config.quantityPerLevel
            && NearestTick(t.price, r.lastClose + Away(t.side, step, t.level), r.config.tickSize)
            && t.key == TriggerKey(r.symbol, t.side, t.level, t.price)
  {
    var t, cfg := MakePlan(r).triggers[i], r.config;
    StepIsGridStep(r, step);
    PlanIsLadder(r);
    var sides := Sides(cfg, r.bias);
    LadderShape(cfg, r.symbol, r.lastClose, step, sides, Levels(cfg, |sides|));
    assert Away(t.side, step, t.level) == Offset(t.side, step, t.level);
    RoundIsNearest(t.price, r.lastClose + Away(t.side, step, t.level), cfg.tickSize);
    hide MakePlan, Ladder, GridStep, NearestTick, WithinBand, StepIs, Levels, RoundToTick, Unblocked, DistinctKeys;
  }

  // ---------------------------------------------------------------- the invalidation price and the other fields

  /** The stop distance: the range times its factor, but at least one step. */
  predicate StopIs(r: Request, step: real, distance: real)
    requires r.atr.Some?
  {
    var byRange := r.atr.value * r.config.cycleStopR;
    distance >= byRange && distance >= step && (distance == byRange || distance == step)
  }

  /**
    The invalidation price: the nearest tick a stop distance beyond the zone and the close, below for LONG
    and above for SHORT; none without a ladder, a zone or a direction.
   */
  lemma InvalidationIs(r: Request, step: real, distance: real)
    requires r.config.Valid() && StepIs(r, step) && StopIs(r, step, distance)
    ensures var inv := MakePlan(r).invalidation;
            && (inv.Some? <==> Unblocked(r) && r.zone.Some? && r.bias != Neutral)
            && (inv.Some? && r.bias == Long ==>
                  var floor := if r.zone.value.low <= r.lastClose then r.zone.value.low else r.lastClose;
                  NearestTick(inv.value, floor - distance, r.config.tickSize))
            && (inv.Some? && r.bias == Short ==>
                  var ceiling := if r.zone.value.high >= r.lastClose then r.zone.value.high else r.lastClose;
                  NearestTick(inv.value, ceiling + distance, r.config.tickSize))
  {
    StepIsGridStep(r, step);
    PlanIsLadder(r);
    assert StopDistance(r.config, r.atr.value, step) == distance;
    hide MakePlan, Ladder, GridStep, StepIs, Levels, NearestTick, StopDistance, StopIs, RoundToTick, Unblocked;
    if r.zone.Some? && r.bias != Neutral {
      var boundary := Boundary(r.lastClose, distance, r.bias, r.zone.value);
      RoundIsNearest(RoundToTick(boundary, r.config.tickSize), boundary, r.config.tickSize);
    }
  }

  /** The fields that a plan copies, whatever became of its ladder; it is never executable. */
  lemma PlanFields(r: Request)
    requires r.config.Valid()
    ensures var plan := MakePlan(r);
            && plan.symbol == r.symbol && plan.anchor == r.lastClose && plan.researchOnly && !plan.executable
            && plan.basketTakeProfitR == r.config.basketTakeProfitR && plan.cycleStopR == r.config.cycleStopR
            && plan.maxTotalQuantity == r.config.maxTotalQuantity
            && (Plannable(r) ==>
                  plan.bias == r.bias && plan.atr == r.atr.value && plan.zone == r.zone && StepIs(r, plan.gridStep))
            && (!Plannable(r) ==> plan.bias == Neutral && plan.atr == 0.0 && plan.zone.None? && plan.triggers == [])
  {
    BetweenIs(r.lastClose, r.config);
    GridStepIs(r);
    hide Ladder, GridStep, Invalidation, Levels, Between, WithinBand, StepIs;
  }

  lemma GridStepIs(r: Request)
    requires r.config.Valid()
    ensures r.atr.Some? ==> StepIs(r, GridStep(r.config, r.atr.value))
  {
    if r.atr.Some? {
      var raw := match r.config.gridStepAbs case Some(d) => d case None => r.atr.value * r.config.gridStepAtr;
      assert raw == RawStep(r.config, r.atr.value);
      hide RawStep, NearestTick, Ticks, TickPrice;
      RoundIsNearest(RoundToTick(raw, r.config.tickSize), raw, r.config.tickSize);
      MaxOfTicks(Ticks(raw, r.config.tickSize), r.config.tickSize);
    }
  }
}
