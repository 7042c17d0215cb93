/**
  The ladder planner: tick-rounded virtual triggers around an anchor price under integer caps. The
  price-action analysis that proposes a bias and a zone, and the average true range, are inputs:
  everything below holds whatever they are.
 */
module VideoEaPlanner {
  import opened Domain

  datatype Bias = Long | Short | Neutral

  datatype GridMode = PaFiltered | SymmetricResearch

  datatype MarketProfile = SetEquity | TfexResearch | GenericResearch

  datatype Config = Config(
    gridMode: GridMode,
    marketProfile: MarketProfile,
    pivotWindow: nat,
    atrPeriod: nat,
    gridStepAtr: real,
    gridStepAbs: Option<real>,
    tickSize: real,
    lowerPriceBand: Option<real>,
    upperPriceBand: Option<real>,
    levelsPerSide: nat,
    quantityPerLevel: nat,
    maxTotalQuantity: nat,
    maxPendingTriggers: nat,
    basketTakeProfitR: real,
    cycleStopR: real)
  {
    /** The validated field ranges that the planner relies on. */
    predicate Valid() {
      && gridStepAtr > 0.0 && (gridStepAbs.Some? ==> gridStepAbs.value > 0.0)
      && tickSize > 0.0
      && levelsPerSide >= 1 && quantityPerLevel >= 1 && maxPendingTriggers >= 1
      && quantityPerLevel <= maxTotalQuantity
      && basketTakeProfitR > 0.0 && cycleStopR > 0.0
    }
  }

  datatype Zone = Zone(low: real, high: real)

  /** The structured form of the text `video-ea:symbol:side:level:price`. */
  datatype TriggerKey = TriggerKey(symbol: Symbol, side: Side, level: nat, price: real)

  datatype Trigger = Trigger(side: Side, level: nat, price: real, quantity: nat, key: TriggerKey)

  datatype Plan = Plan(
    symbol: Symbol,
    bias: Bias,
    anchor: real,
    atr: real,
    gridStep: real,
    zone: Option<Zone>,
    triggers: seq<Trigger>,
    invalidation: Option<real>,
    basketTakeProfitR: real,
    cycleStopR: real,
    maxTotalQuantity: nat,
    researchOnly: bool,
    executable: bool)

  /** What the planner is asked: the trimmed candles appear as their number, last close, range and structure. */
  datatype Request = Request(
    symbol: Symbol,
    bars: nat,
    lastClose: real,
    atr: Option<real>,
    bias: Bias,
    zone: Option<Zone>,
    researchOnly: bool,
    config: Config)

  // ---------------------------------------------------------------- tick arithmetic

  /** The nearest number of ticks, halves rounding up. */
  function Ticks(value: real, tick: real): int
    requires tick > 0.0
  {
    (value / tick + 0.5).Floor
  }

  /** A number of ticks as a price. */
  function TickPrice(n: int, tick: real): real {
    n as real * tick
  }

  /** The nearest tick multiple, but never below one tick. */
  function RoundToTick(value: real, tick: real): real
    requires tick > 0.0
  {
    MaxReal(tick, TickPrice(Ticks(value, tick), tick))
  }

  predicate WithinBand(price: real, cfg: Config) {
    && (cfg.lowerPriceBand.Some? ==> price >= cfg.lowerPriceBand.value)
    && (cfg.upperPriceBand.Some? ==> price <= cfg.upperPriceBand.value)
  }

  // ---------------------------------------------------------------- the plan

  function RawStep(cfg: Config, atr: real): real {
    if cfg.gridStepAbs.Some? && cfg.gridStepAbs.value != 0.0 then cfg.gridStepAbs.value else atr * cfg.gridStepAtr
  }

  function GridStep(cfg: Config, atr: real): real
    requires cfg.tickSize > 0.0
  {
    MaxReal(cfg.tickSize, RoundToTick(RawStep(cfg, atr), cfg.tickSize))
  }

  predicate Blocked(r: Request) {
    || (r.config.marketProfile.SetEquity? && r.config.gridMode.SymmetricResearch?)
    || (r.config.marketProfile.SetEquity? && r.config.gridMode.PaFiltered? && r.bias.Short?)
    || (r.config.gridMode.SymmetricResearch? && !r.researchOnly)
  }

  function Sides(cfg: Config, bias: Bias): seq<Side> {
    if cfg.gridMode.SymmetricResearch? then [Buy, Sell] else if bias.Long? then [Buy] else [Sell]
  }

  /** The distance of a rung from the anchor, signed by its side. */
  function Offset(side: Side, step: real, level: nat): real {
    if side.Buy? then step * level as real else -(step * level as real)
  }

  function RungPrice(cfg: Config, anchor: real, step: real, side: Side, level: nat): real
    requires cfg.tickSize > 0.0
  {
    RoundToTick(anchor + Offset(side, step, level), cfg.tickSize)
  }

  function Rung(cfg: Config, symbol: Symbol, anchor: real, step: real, side: Side, level: nat): Trigger
    requires cfg.tickSize > 0.0
  {
    var price := RungPrice(cfg, anchor, step, side, level);
    Trigger(side, level, price, cfg.quantityPerLevel, TriggerKey(symbol, side, level, price))
  }

  /** The rungs 1 to n of one side that lie within the price band. */
  function Rungs(cfg: Config, symbol: Symbol, anchor: real, step: real, side: Side, n: nat): seq<Trigger>
    requires cfg.tickSize > 0.0
  {
    if n == 0 then []
    else
      var rung := Rung(cfg, symbol, anchor, step, side, n);
      Rungs(cfg, symbol, anchor, step, side, n - 1) + if WithinBand(rung.price, cfg) then [rung] else []
  }

  function Ladder(cfg: Config, symbol: Symbol, anchor: real, step: real, sides: seq<Side>, levels: nat): seq<Trigger>
    requires cfg.tickSize > 0.0
  {
    if |sides| == 0 then []
    else Ladder(cfg, symbol, anchor, step, sides[..|sides| - 1], levels)
         + Rungs(cfg, symbol, anchor, step, sides[|sides| - 1], levels)
  }

  function Levels(cfg: Config, sides: nat): nat
    requires cfg.quantityPerLevel >= 1 && sides >= 1
  {
    var byQuantity := (cfg.maxTotalQuantity / cfg.quantityPerLevel) / sides;
    var byPending := cfg.maxPendingTriggers / sides;
    MinInt(cfg.levelsPerSide, MinInt(byQuantity, byPending))
  }

  function StopDistance(cfg: Config, atr: real, step: real): real {
    MaxReal(atr * cfg.cycleStopR, step)
  }

  function Boundary(anchor: real, distance: real, bias: Bias, zone: Zone): real {
    if bias.Long? then MinReal(zone.low - distance, anchor - distance)
    else MaxReal(zone.high + distance, anchor + distance)
  }

  function Invalidation(cfg: Config, anchor: real, atr: real, step: real, bias: Bias, zone: Option<Zone>): Option<real>
    requires cfg.tickSize > 0.0
  {
    if zone.None? || bias.Neutral? then None
    else
      Some(RoundToTick(Boundary(anchor, StopDistance(cfg, atr, step), bias, zone.value), cfg.tickSize))
  }

  function EmptyPlan(r: Request, bias: Bias, atr: real, step: real, zone: Option<Zone>): Plan {
    Plan(r.symbol, bias, r.lastClose, atr, step, zone, [], None, r.config.basketTakeProfitR, r.config.cycleStopR,
         r.config.maxTotalQuantity, true, false)
  }

  function MinimumBars(cfg: Config): nat {
    if cfg.atrPeriod + 2 >= cfg.pivotWindow * 2 + 5 then cfg.atrPeriod + 2 else cfg.pivotWindow * 2 + 5
  }

  /** The planner fails closed: without history, range, band or direction there are no triggers. */
  function MakePlan(r: Request): Plan
    requires r.config.Valid()
  {
    var cfg := r.config;
    var fallback := if cfg.gridStepAbs.Some? then cfg.gridStepAbs.value else cfg.tickSize;
    if r.bars < MinimumBars(cfg) || r.atr.None? || r.atr.value <= 0.0 || !WithinBand(r.lastClose, cfg) then
      EmptyPlan(r, Neutral, 0.0, fallback, None)
    else
      var step := GridStep(cfg, r.atr.value);
      if Blocked(r) || (cfg.gridMode.PaFiltered? && r.bias.Neutral?) then
        EmptyPlan(r, r.bias, r.atr.value, step, r.zone)
      else
        var sides := Sides(cfg, r.bias);
        Plan(r.symbol, r.bias, r.lastClose, r.atr.value, step, r.zone,
             Ladder(cfg, r.symbol, r.lastClose, step, sides, Levels(cfg, |sides|)),
             Invalidation(cfg, r.lastClose, r.atr.value, step, r.bias, r.zone),
             cfg.basketTakeProfitR, cfg.cycleStopR, cfg.maxTotalQuantity, true, false)
  }

  /** The nested loop that builds the ladder. */
  method BuildTriggers(cfg: Config, symbol: Symbol, anchor: real, step: real, sides: seq<Side>, levels: nat)
      returns (result: seq<Trigger>)
    requires cfg.tickSize > 0.0
    ensures result == Ladder(cfg, symbol, anchor, step, sides, levels)
  {
    result := [];
    for k := 0 to |sides|
      invariant result == Ladder(cfg, symbol, anchor, step, sides[..k], levels)
    {
      assert sides[..k + 1][..k] == sides[..k];
      var side := sides[k];
      ghost var before := result;
      for level := 1 to levels + 1
        invariant result == before + Rungs(cfg, symbol, anchor, step, side, level - 1)
      {
        var price := RungPrice(cfg, anchor, step, side, level);
        if WithinBand(price, cfg) {
          var key := TriggerKey(symbol, side, level, price);
          result := result + [Trigger(side, level, price, cfg.quantityPerLevel, key)];
        }
      }
    }
    assert sides[..|sides|] == sides;
  }

  // ---------------------------------------------------------------- caps

  function TotalQuantity(triggers: seq<Trigger>): nat {
    if |triggers| == 0 then 0 else TotalQuantity(triggers[..|triggers| - 1]) + triggers[|triggers| - 1].quantity
  }

  lemma {:induction false} TotalOfUniform(triggers: seq<Trigger>, quantity: nat)
    requires forall i :: 0 <= i < |triggers| ==> triggers[i].quantity == quantity
    ensures TotalQuantity(triggers) == |triggers| * quantity
  {
    if |triggers| > 0 {
      TotalOfUniform(triggers[..|triggers| - 1], quantity);
    }
  }

  /** One rung of a ladder. */
  ghost predicate IsRung(t: Trigger, cfg: Config, symbol: Symbol, anchor: real, step: real, side: Side, level: nat)
    requires cfg.tickSize > 0.0
  {
    t == Rung(cfg, symbol, anchor, step, side, level) && WithinBand(t.price, cfg)
  }

  /** The rungs of a side have rising levels between 1 and n. */
  lemma {:induction false} RungsShape(cfg: Config, symbol: Symbol, anchor: real, step: real, side: Side, n: nat)
    requires cfg.tickSize > 0.0
    ensures var rungs := Rungs(cfg, symbol, anchor, step, side, n);
            && |rungs| <= n
            && (forall i :: 0 <= i < |rungs| ==>
                  1 <= rungs[i].level <= n && IsRung(rungs[i], cfg, symbol, anchor, step, side, rungs[i].level))
            && (forall i, j :: 0 <= i < j < |rungs| ==> rungs[i].level < rungs[j].level)
  {
    if n > 0 {
      RungsShape(cfg, symbol, anchor, step, side, n - 1);
      hide RungPrice, WithinBand;
    }
  }

  ghost predicate DistinctKeys(triggers: seq<Trigger>) {
    forall i, j :: 0 <= i < j < |triggers| ==> triggers[i].key != triggers[j].key
  }

  /** A trigger carries its own side, level and price in its key. */
  ghost predicate OwnKey(t: Trigger, symbol: Symbol) {
    t.key == TriggerKey(symbol, t.side, t.level, t.price)
  }

  lemma RungsKeys(cfg: Config, symbol: Symbol, anchor: real, step: real, side: Side, n: nat)
    requires cfg.tickSize > 0.0
    ensures var rungs := Rungs(cfg, symbol, anchor, step, side, n);
            && (forall i :: 0 <= i < |rungs| ==> OwnKey(rungs[i], symbol) && rungs[i].side == side)
            && DistinctKeys(rungs)
  {
    var rungs := Rungs(cfg, symbol, anchor, step, side, n);
    RungsShape(cfg, symbol, anchor, step, side, n);
    hide RungPrice, WithinBand, Rungs;
  }

  lemma LadderOfSides(cfg: Config, symbol: Symbol, anchor: real, step: real, levels: nat)
    requires cfg.tickSize > 0.0
    ensures forall side ::
              Ladder(cfg, symbol, anchor, step, [side], levels) == Rungs(cfg, symbol, anchor, step, side, levels)
    ensures Ladder(cfg, symbol, anchor, step, [Buy, Sell], levels)
            == Rungs(cfg, symbol, anchor, step, Buy, levels) + Rungs(cfg, symbol, anchor, step, Sell, levels)
  {
    hide Rungs;
    forall side
      ensures Ladder(cfg, symbol, anchor, step, [side], levels) == Rungs(cfg, symbol, anchor, step, side, levels)
    {
      assert [side][..0] == [] && Ladder(cfg, symbol, anchor, step, [], levels) == [];
    }
    assert [Buy, Sell][..1] == [Buy];
  }

  lemma DistinctAcrossSides(first: seq<Trigger>, second: seq<Trigger>, symbol: Symbol)
    requires DistinctKeys(first) && DistinctKeys(second)
    requires forall i :: 0 <= i < |first| ==> OwnKey(first[i], symbol) && first[i].side == Buy
    requires forall i :: 0 <= i < |second| ==> OwnKey(second[i], symbol) && second[i].side == Sell
    ensures DistinctKeys(first + second)
  {
  }

  /** Few enough rungs, all of them rungs of the given sides, no key twice. */
  ghost predicate LadderOk(ladder: seq<Trigger>, cfg: Config, symbol: Symbol, anchor: real, step: real,
                           sides: seq<Side>, levels: nat)
    requires cfg.tickSize > 0.0
  {
    && |ladder| <= (if |sides| == 2 then 2 * levels else levels)
    && (forall i :: 0 <= i < |ladder| ==>
          ladder[i].side in sides && 1 <= ladder[i].level <= levels
          && IsRung(ladder[i], cfg, symbol, anchor, step, ladder[i].side, ladder[i].level))
    && DistinctKeys(ladder)
  }

  lemma OneSidedLadder(cfg: Config, symbol: Symbol, anchor: real, step: real, side: Side, levels: nat)
    requires cfg.tickSize > 0.0
    ensures LadderOk(Rungs(cfg, symbol, anchor, step, side, levels), cfg, symbol, anchor, step, [side], levels)
  {
    RungsShape(cfg, symbol, anchor, step, side, levels);
    RungsKeys(cfg, symbol, anchor, step, side, levels);
    hide IsRung, Rungs, DistinctKeys;
  }

  lemma TwoSidedLadder(cfg: Config, symbol: Symbol, anchor: real, step: real, levels: nat)
    requires cfg.tickSize > 0.0
    ensures LadderOk(Rungs(cfg, symbol, anchor, step, Buy, levels) + Rungs(cfg, symbol, anchor, step, Sell, levels),
                     cfg, symbol, anchor, step, [Buy, Sell], levels)
  {
    var buys, sells := Rungs(cfg, symbol, anchor, step, Buy, levels), Rungs(cfg, symbol, anchor, step, Sell, levels);
    OneSidedLadder(cfg, symbol, anchor, step, Buy, levels);
    OneSidedLadder(cfg, symbol, anchor, step, Sell, levels);
    RungsKeys(cfg, symbol, anchor, step, Buy, levels);
    RungsKeys(cfg, symbol, anchor, step, Sell, levels);
    DistinctAcrossSides(buys, sells, symbol);
    hide IsRung, Rungs, DistinctKeys, OwnKey;
    forall i | 0 <= i < |buys + sells|
      ensures var t := (buys + sells)[i];
              t.side in [Buy, Sell] && 1 <= t.level <= levels && IsRung(t, cfg, symbol, anchor, step, t.side, t.level)
    {
      if i >= |buys| {
        assert (buys + sells)[i] == sells[i - |buys|];
      }
    }
  }

  lemma LadderShape(cfg: Config, symbol: Symbol, anchor: real, step: real, sides: seq<Side>, levels: nat)
    requires cfg.tickSize > 0.0
    requires sides == [Buy] || sides == [Sell] || sides == [Buy, Sell]
    ensures LadderOk(Ladder(cfg, symbol, anchor, step, sides, levels), cfg, symbol, anchor, step, sides, levels)
  {
    LadderOfSides(cfg, symbol, anchor, step, levels);
    OneSidedLadder(cfg, symbol, anchor, step, Buy, levels);
    OneSidedLadder(cfg, symbol, anchor, step, Sell, levels);
    TwoSidedLadder(cfg, symbol, anchor, step, levels);
    hide LadderOk, Ladder, Rungs;
  }

  lemma LevelsFit(cfg: Config, sides: nat)
    requires cfg.quantityPerLevel >= 1 && 1 <= sides <= 2
    ensures sides * Levels(cfg, sides) <= cfg.maxPendingTriggers
    ensures sides * Levels(cfg, sides) <= cfg.maxTotalQuantity / cfg.quantityPerLevel
  {
  }

  lemma QuotientFits(n: nat, total: nat, q: nat)
    requires q >= 1 && n <= total / q
    ensures n * q <= total
  {
    assert (total / q) * q <= total;
    assert n * q <= (total / q) * q;
  }

  /** The plan is one of the planner's ladders. */
  ghost predicate HasLadder(r: Request)
    requires r.config.Valid()
  {
    MakePlan(r).triggers != []
  }

  lemma PlanLadder(r: Request)
    requires r.config.Valid() && HasLadder(r)
    ensures var sides, step := Sides(r.config, r.bias), GridStep(r.config, r.atr.value);
            && r.atr.Some? && r.atr.value > 0.0
            && MakePlan(r).triggers == Ladder(r.config, r.symbol, r.lastClose, step, sides, Levels(r.config, |sides|))
            && MakePlan(r).gridStep == step && MakePlan(r).anchor == r.lastClose && MakePlan(r).bias == r.bias
            && MakePlan(r).invalidation == Invalidation(r.config, r.lastClose, r.atr.value, step, r.bias, r.zone)
  {
    hide Ladder, GridStep, Invalidation, Levels;
  }

  /**
    Main result on caps: for every request the planned quantity and the number of triggers stay
    within the configured caps, and no de-duplication key occurs twice.
   */
  lemma PlanWithinCaps(r: Request)
    requires r.config.Valid()
    ensures var plan := MakePlan(r);
            && TotalQuantity(plan.triggers) <= plan.maxTotalQuantity == r.config.maxTotalQuantity
            && |plan.triggers| <= r.config.maxPendingTriggers
            && DistinctKeys(plan.triggers)
            && (forall i :: 0 <= i < |plan.triggers| ==> plan.triggers[i].quantity == r.config.quantityPerLevel)
  {
    if HasLadder(r) {
      var cfg, sides := r.config, Sides(r.config, r.bias);
      var triggers := MakePlan(r).triggers;
      PlanLadder(r);
      LadderShape(cfg, r.symbol, r.lastClose, GridStep(cfg, r.atr.value), sides, Levels(cfg, |sides|));
      LevelsFit(cfg, |sides|);
      assert MakePlan(r).maxTotalQuantity == cfg.maxTotalQuantity;
      hide MakePlan, Ladder, Levels, RungPrice, WithinBand, GridStep;
      TotalOfUniform(triggers, cfg.quantityPerLevel);
      QuotientFits(|triggers|, cfg.maxTotalQuantity, cfg.quantityPerLevel);
    }
  }

  // ---------------------------------------------------------------- prices

  lemma QuotientShift(value: real, tick: real, m: real)
    requires tick > 0.0
    ensures (value + m * tick) / tick == value / tick + m
  {
    var x := value / tick;
    assert value == x * tick;
    assert value + m * tick == (x + m) * tick;
  }

  /** Shifting by whole ticks shifts the rounding by exactly as many. */
  lemma TicksShift(value: real, tick: real, m: int)
    requires tick > 0.0
    ensures Ticks(value + TickPrice(m, tick), tick) == Ticks(value, tick) + m
  {
    var x := value / tick;
    QuotientShift(value, tick, m as real);
    assert (value + TickPrice(m, tick)) / tick == x + m as real;
    FloorShift(x + 0.5, m);
    hide TickPrice;
  }

  lemma FloorShift(x: real, m: int)
    ensures (x + m as real).Floor == x.Floor + m
  {
  }

  lemma TickPriceSum(n: int, d: int, tick: real)
    ensures TickPrice(n + d, tick) == TickPrice(n, tick) + TickPrice(d, tick)
    ensures TickPrice(-d, tick) == -TickPrice(d, tick)
  {
    var x, y := n as real, d as real;
    assert (n + d) as real == x + y && (-d) as real == -y;
    assert (x + y) * tick == x * tick + y * tick;
    assert (-y) * tick == -(y * tick);
  }

  lemma TickPriceBounds(n: int, x: real, tick: real)
    requires tick > 0.0
    ensures n as real <= x + 0.5 ==> TickPrice(n, tick) <= x * tick + tick / 2.0
    ensures n as real > x - 0.5 ==> TickPrice(n, tick) > x * tick - tick / 2.0
  {
    var y := n as real - x;
    assert TickPrice(n, tick) == x * tick + y * tick;
    if y <= 0.5 {
      assert y * tick <= 0.5 * tick;
    }
    if y > -0.5 {
      assert y * tick > -0.5 * tick;
    }
  }

  /** Rounding moves a value by at most half a tick. */
  lemma TicksNear(value: real, tick: real)
    requires tick > 0.0
    ensures value - tick / 2.0 < TickPrice(Ticks(value, tick), tick) <= value + tick / 2.0
  {
    var x, n := value / tick, Ticks(value, tick);
    assert x * tick == value;
    TickPriceBounds(n, x, tick);
    assert n as real <= x + 0.5 && n as real > x - 0.5;
    hide TickPrice, Ticks;
  }

  /** The grid step in ticks. */
  function StepTicks(cfg: Config, atr: real): (m: int)
    requires cfg.tickSize > 0.0
    ensures m >= 1
  {
    var n := Ticks(RawStep(cfg, atr), cfg.tickSize);
    if n < 1 then 1 else n
  }

  lemma MaxOfTicks(n: int, tick: real)
    requires tick > 0.0
    ensures MaxReal(tick, TickPrice(n, tick)) == TickPrice(if n < 1 then 1 else n, tick) >= tick
  {
    if n >= 1 {
      assert n as real * tick >= 1.0 * tick;
    } else {
      assert n as real * tick <= 0.0 * tick;
    }
  }

  lemma GridStepIsTicks(cfg: Config, atr: real)
    requires cfg.tickSize > 0.0
    ensures GridStep(cfg, atr) == TickPrice(StepTicks(cfg, atr), cfg.tickSize) >= cfg.tickSize
  {
    MaxOfTicks(Ticks(RawStep(cfg, atr), cfg.tickSize), cfg.tickSize);
    hide Ticks, TickPrice, RawStep;
  }

  function Signed(side: Side, n: int): int {
    if side.Buy? then n else -n
  }

  lemma ProductIsTicks(m: int, level: nat, tick: real)
    ensures TickPrice(m, tick) * level as real == TickPrice(m * level, tick)
  {
    var p := m * level;
    assert p as real == m as real * level as real;
    assert (m as real * tick) * level as real == (m as real * level as real) * tick;
  }

  lemma OffsetIsTicks(side: Side, m: int, level: nat, tick: real)
    ensures Offset(side, TickPrice(m, tick), level) == TickPrice(Signed(side, m * level), tick)
  {
    ProductIsTicks(m, level, tick);
    TickPriceSum(0, m * level, tick);
    hide TickPrice;
  }

  /** A rung's price in ticks before the one-tick floor. */
  function RungTicks(cfg: Config, anchor: real, atr: real, side: Side, level: nat): int
    requires cfg.tickSize > 0.0
  {
    Ticks(anchor, cfg.tickSize) + Signed(side, StepTicks(cfg, atr) * level)
  }

  /** A rung lies a whole number of steps from the rounded anchor, unless the one-tick floor holds it up. */
  lemma RungOnGrid(cfg: Config, anchor: real, atr: real, side: Side, level: nat)
    requires cfg.tickSize > 0.0
    ensures RungPrice(cfg, anchor, GridStep(cfg, atr), side, level)
            == MaxReal(cfg.tickSize, TickPrice(RungTicks(cfg, anchor, atr, side, level), cfg.tickSize))
  {
    hide GridStep, StepTicks, Ticks, Offset, TickPrice;
    var m := StepTicks(cfg, atr);
    GridStepIsTicks(cfg, atr);
    OffsetIsTicks(side, m, level, cfg.tickSize);
    TicksShift(anchor, cfg.tickSize, Signed(side, m * level));
  }

  lemma OneMoreStep(cfg: Config, anchor: real, atr: real, side: Side, level: nat)
    requires cfg.tickSize > 0.0
    ensures RungTicks(cfg, anchor, atr, side, level + 1)
            == RungTicks(cfg, anchor, atr, side, level) + Signed(side, StepTicks(cfg, atr))
  {
    hide StepTicks, Ticks;
    var m := StepTicks(cfg, atr);
    assert m * (level + 1) == m * level + m;
  }

  /** A rung that the one-tick floor does not hold up lies exactly at its tick. */
  lemma UnclampedRung(cfg: Config, anchor: real, atr: real, side: Side, level: nat)
    requires cfg.tickSize > 0.0 && RungTicks(cfg, anchor, atr, side, level) >= 1
    ensures RungPrice(cfg, anchor, GridStep(cfg, atr), side, level)
            == TickPrice(RungTicks(cfg, anchor, atr, side, level), cfg.tickSize)
  {
    hide RungPrice, GridStep, RungTicks, TickPrice;
    RungOnGrid(cfg, anchor, atr, side, level);
    MaxOfTicks(RungTicks(cfg, anchor, atr, side, level), cfg.tickSize);
  }

  /** Main result on spacing: neighbouring rungs that are not clamped are exactly one grid step apart. */
  lemma RungSpacing(cfg: Config, anchor: real, atr: real, side: Side, level: nat)
    requires cfg.tickSize > 0.0
    requires RungTicks(cfg, anchor, atr, side, level) >= 1 && RungTicks(cfg, anchor, atr, side, level + 1) >= 1
    ensures RungPrice(cfg, anchor, GridStep(cfg, atr), side, level + 1)
            == RungPrice(cfg, anchor, GridStep(cfg, atr), side, level)
               + (if side.Buy? then GridStep(cfg, atr) else -GridStep(cfg, atr))
  {
    hide RungPrice, GridStep, StepTicks, RungTicks, TickPrice;
    var m, n := StepTicks(cfg, atr), RungTicks(cfg, anchor, atr, side, level);
    UnclampedRung(cfg, anchor, atr, side, level);
    UnclampedRung(cfg, anchor, atr, side, level + 1);
    OneMoreStep(cfg, anchor, atr, side, level);
    GridStepIsTicks(cfg, atr);
    TickPriceSum(n, Signed(side, m), cfg.tickSize);
    TickPriceSum(n, m, cfg.tickSize);
  }

  /**
    A value at least a tick above stays above after rounding; one at least a tick below stays below
    exactly above the floor.
   */
  lemma RoundingKeepsSide(anchor: real, value: real, tick: real)
    requires tick > 0.0
    ensures value >= anchor + tick ==> RoundToTick(value, tick) > anchor
    ensures value <= anchor - tick ==> (RoundToTick(value, tick) < anchor <==> anchor > tick)
  {
    hide Ticks, TickPrice;
    TicksNear(value, tick);
  }

  lemma StepTimesLevel(step: real, tick: real, level: nat)
    requires step >= tick > 0.0 && level >= 1
    ensures step * level as real >= tick
  {
    assert step * level as real >= step * 1.0;
  }

  /**
    BUY rungs lie strictly above the anchor; SELL rungs strictly below it exactly when the anchor is
    above one tick.
   */
  lemma RungSide(cfg: Config, anchor: real, atr: real, side: Side, level: nat)
    requires cfg.tickSize > 0.0 && level >= 1
    ensures var price := RungPrice(cfg, anchor, GridStep(cfg, atr), side, level);
            if side.Buy? then price > anchor else (price < anchor <==> anchor > cfg.tickSize)
  {
    var step := GridStep(cfg, atr);
    GridStepIsTicks(cfg, atr);
    StepTimesLevel(step, cfg.tickSize, level);
    assert Offset(side, step, level) == if side.Buy? then step * level as real else -(step * level as real);
    hide GridStep, RoundToTick, Offset;
    RoundingKeepsSide(anchor, anchor + Offset(side, step, level), cfg.tickSize);
  }

  /**
    The invalidation price lies on the far side of the anchor from the bias; for LONG exactly when the
    anchor is above one tick.
   */
  lemma InvalidationSide(cfg: Config, anchor: real, atr: real, bias: Bias, zone: Option<Zone>)
    requires cfg.tickSize > 0.0 && zone.Some? && !bias.Neutral?
    ensures var inv := Invalidation(cfg, anchor, atr, GridStep(cfg, atr), bias, zone);
            inv.Some? && if bias.Long? then (inv.value < anchor <==> anchor > cfg.tickSize) else inv.value > anchor
  {
    hide GridStep, RoundToTick, StopDistance;
    var distance := StopDistance(cfg, atr, GridStep(cfg, atr));
    GridStepIsTicks(cfg, atr);
    StopAtLeastStep(cfg, atr, GridStep(cfg, atr));
    RoundingKeepsSide(anchor, Boundary(anchor, distance, bias, zone.value), cfg.tickSize);
  }

  /** A LONG invalidation price is below the anchor, or held up at one tick. */
  lemma LongInvalidationFloor(cfg: Config, anchor: real, atr: real, zone: Option<Zone>)
    requires cfg.tickSize > 0.0 && zone.Some?
    ensures var inv := Invalidation(cfg, anchor, atr, GridStep(cfg, atr), Long, zone);
            inv.Some? && inv.value >= cfg.tickSize && (inv.value < anchor || inv.value == cfg.tickSize)
  {
    hide GridStep, StopDistance, Ticks, TickPrice;
    var distance := StopDistance(cfg, atr, GridStep(cfg, atr));
    GridStepIsTicks(cfg, atr);
    StopAtLeastStep(cfg, atr, GridStep(cfg, atr));
    TicksNear(Boundary(anchor, distance, Long, zone.value), cfg.tickSize);
  }

  /** A whole number of ticks, at least one, is one tick only if the number is one. */
  lemma OneTick(n: int, tick: real)
    requires n >= 1 && tick > 0.0
    ensures TickPrice(n, tick) == tick <==> n == 1
  {
    if n >= 2 {
      assert n as real * tick >= 2.0 * tick;
    }
  }

  lemma QuotientBelowHalf(value: real, tick: real)
    requires value > 0.0 && tick > 0.0
    ensures value / tick > 0.0
    ensures value / tick < 0.5 <==> value < tick / 2.0
  {
    var x := value / tick;
    var y := 0.5 - x;
    assert value == x * tick;
    assert y * tick == 0.5 * tick - x * tick;
    assert y > 0.0 ==> y * tick > 0.0;
    assert y <= 0.0 ==> y * tick <= 0.0;
    var gap := y * tick;
    assert gap == tick / 2.0 - value;
    assert x > 0.0;
  }

  /** A positive value rounds to no tick at all exactly below half a tick. */
  lemma NoTicksIff(value: real, tick: real)
    requires value > 0.0 && tick > 0.0
    ensures Ticks(value, tick) >= 0
    ensures Ticks(value, tick) == 0 <==> value < tick / 2.0
  {
    QuotientBelowHalf(value, tick);
    var x := value / tick;
    assert Ticks(value, tick) == (x + 0.5).Floor;
  }

  /** A BUY rung lies at one tick exactly if it is the first, the step is one tick and the anchor below half a tick. */
  lemma BuyRungAtOneTickIff(cfg: Config, anchor: real, atr: real, level: nat)
    requires cfg.tickSize > 0.0 && anchor > 0.0 && level >= 1
    ensures RungPrice(cfg, anchor, GridStep(cfg, atr), Buy, level) >= cfg.tickSize
    ensures RungPrice(cfg, anchor, GridStep(cfg, atr), Buy, level) == cfg.tickSize <==>
            level == 1 && anchor < cfg.tickSize / 2.0 && GridStep(cfg, atr) == cfg.tickSize
  {
    hide RungPrice, GridStep, StepTicks, TickPrice, Ticks;
    var m, n := StepTicks(cfg, atr), RungTicks(cfg, anchor, atr, Buy, level);
    RungOnGrid(cfg, anchor, atr, Buy, level);
    GridStepIsTicks(cfg, atr);
    OneTick(m, cfg.tickSize);
    MaxOfTicks(n, cfg.tickSize);
    OneTick(if n < 1 then 1 else n, cfg.tickSize);
    NoTicksIff(anchor, cfg.tickSize);
    ProductAtLeast(m, level);
  }

  lemma ProductAtLeast(m: int, level: nat)
    requires m >= 1 && level >= 1
    ensures m * level >= 1 && (m * level == 1 <==> m == 1 && level == 1)
  {
    assert m * level >= m * 1 && m * level >= 1 * level;
    if m == 1 {
      assert m * level == level;
    }
  }

  lemma {:induction false} RungsContain(cfg: Config, symbol: Symbol, anchor: real, step: real, side: Side, n: nat,
                                        level: nat)
    requires cfg.tickSize > 0.0 && 1 <= level <= n && WithinBand(RungPrice(cfg, anchor, step, side, level), cfg)
    ensures Rung(cfg, symbol, anchor, step, side, level) in Rungs(cfg, symbol, anchor, step, side, n)
  {
    if level < n {
      RungsContain(cfg, symbol, anchor, step, side, n - 1, level);
    }
    hide RungPrice, WithinBand;
  }

  lemma StopAtLeastStep(cfg: Config, atr: real, step: real)
    ensures StopDistance(cfg, atr, step) >= step
  {
  }

  /** An invalidation price comes with a range, a zone and a direction, whether or not there are triggers. */
  lemma PlanInvalidation(r: Request)
    requires r.config.Valid() && MakePlan(r).invalidation.Some?
    ensures r.atr.Some? && r.zone.Some? && !r.bias.Neutral? && MakePlan(r).bias == r.bias
    ensures MakePlan(r).anchor == r.lastClose
    ensures MakePlan(r).invalidation
            == Invalidation(r.config, r.lastClose, r.atr.value, GridStep(r.config, r.atr.value), r.bias, r.zone)
  {
    hide Ladder, GridStep, Levels, RoundToTick;
  }

  /**
    Main result on prices: with the anchor above one tick, every plan's BUY triggers lie strictly
    above it, its SELL triggers strictly below, and its invalidation price on the opposite side
    from the bias.
   */
  lemma PlanAroundAnchor(r: Request)
    requires r.config.Valid() && r.lastClose > r.config.tickSize
    ensures var plan := MakePlan(r);
            && (forall i :: 0 <= i < |plan.triggers| ==>
                  if plan.triggers[i].side.Buy? then plan.triggers[i].price > plan.anchor
                  else plan.triggers[i].side.Sell? && plan.triggers[i].price < plan.anchor)
            && (plan.invalidation.Some? ==>
                  if plan.bias.Long? then plan.invalidation.value < plan.anchor
                  else plan.bias.Short? && plan.invalidation.value > plan.anchor)
  {
    if MakePlan(r).invalidation.Some? {
      PlanInvalidation(r);
      InvalidationSide(r.config, r.lastClose, r.atr.value, r.bias, r.zone);
    }
    if HasLadder(r) {
      var plan, cfg, sides := MakePlan(r), r.config, Sides(r.config, r.bias);
      PlanLadder(r);
      LadderShape(cfg, r.symbol, r.lastClose, GridStep(cfg, r.atr.value), sides, Levels(cfg, |sides|));
      hide MakePlan, Ladder, Levels, GridStep, RungPrice, WithinBand, HasLadder;
      forall i | 0 <= i < |plan.triggers|
        ensures if plan.triggers[i].side.Buy? then plan.triggers[i].price > plan.anchor
                else plan.triggers[i].side.Sell? && plan.triggers[i].price < plan.anchor
      {
        RungSide(cfg, r.lastClose, r.atr.value, plan.triggers[i].side, plan.triggers[i].level);
      }
    }
  }
}
