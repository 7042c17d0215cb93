/**
  The end-of-session comparison: positions expected from the durable fills against the positions
  that the broker reports.
 */
module SessionReconcile {
  import opened Domain
  import opened Store
  import opened Portfolio
  import opened PaperBroker

  const FILL_LIMIT := 100_000
  const TOLERANCE := 0.000000001

  predicate Significant(quantity: real) {
    quantity > TOLERANCE || -quantity > TOLERANCE
  }

  /** A quantity as the comparison sees it: anything within the tolerance counts as zero. */
  function Clean(quantity: real): real {
    if Significant(quantity) then quantity else 0.0
  }

  function Quantity(quantities: map<Symbol, real>, symbol: Symbol): real {
    if symbol in quantities then quantities[symbol] else 0.0
  }

  function CleanMap(quantities: map<Symbol, real>): map<Symbol, real> {
    map s | s in quantities && Significant(quantities[s]) :: quantities[s]
  }

  datatype Report = Report(
    matched: bool,
    expected: map<Symbol, real>,
    broker: map<Symbol, real>,
    discrepancies: set<Symbol>,
    unresolved: seq<OrderId>)

  /** The newest fills that the comparison looks at. */
  function Recent(fills: seq<FillRecord>): seq<FillRecord> {
    if |fills| <= FILL_LIMIT then fills else fills[|fills| - FILL_LIMIT..]
  }

  /** The ids of the orders that still need reconciliation, newest first. */
  function Unresolved(orders: seq<OrderRecord>): seq<OrderId> {
    if |orders| == 0 then []
    else
      var last := orders[|orders| - 1];
      (if last.status.NeedsReconciliation? then [last.id] else []) + Unresolved(orders[..|orders| - 1])
  }

  lemma {:induction false} UnresolvedEmptyIff(orders: seq<OrderRecord>)
    ensures Unresolved(orders) == [] <==> forall o :: o in orders ==> !o.status.NeedsReconciliation?
  {
    if |orders| > 0 {
      var rest, last := orders[..|orders| - 1], orders[|orders| - 1];
      UnresolvedEmptyIff(rest);
      assert orders == rest + [last];
      assert last in orders;
    }
  }

  /** The loop over the fills: the signed sum of every symbol. */
  method ExpectedPositions(fills: seq<FillRecord>) returns (expected: map<Symbol, real>)
    ensures forall s :: Quantity(expected, s) == SignedQuantity(fills, s)
  {
    expected := map[];
    var i := 0;
    while i < |fills|
      invariant 0 <= i <= |fills|
      invariant forall s :: Quantity(expected, s) == SignedQuantity(fills[..i], s)
    {
      var fill := fills[i];
      assert fills[..i + 1] == fills[..i] + [fill];
      ghost var before := expected;
      var signed := if fill.side.Buy? then fill.quantity else -fill.quantity;
      expected := expected[fill.symbol := Quantity(expected, fill.symbol) + signed];
      forall s
        ensures Quantity(expected, s) == SignedQuantity(fills[..i + 1], s)
      {
        SignedAppend(fills[..i], fill, s);
        assert Quantity(before, s) == SignedQuantity(fills[..i], s);
      }
      i := i + 1;
    }
    assert fills[..i] == fills;
  }

  /** The broker's positions by symbol. */
  function BrokerQuantities(positions: seq<Position>): map<Symbol, real> {
    var held := BySymbol(positions);
    map s | s in held :: held[s].quantity
  }

  /** Two quantities count as different exactly when they are and one of them exceeds a billionth in size. */
  lemma DifferIff(a: real, b: real)
    ensures Clean(a) != Clean(b) <==>
              a != b && (a > 0.000000001 || a < -0.000000001 || b > 0.000000001 || b < -0.000000001)
  {
  }

  /** The comparison looks at the newest hundred thousand fills. */
  lemma RecentIs(fills: seq<FillRecord>)
    ensures |fills| <= 100_000 ==> Recent(fills) == fills
    ensures |fills| > 100_000 ==> |Recent(fills)| == 100_000 && fills[|fills| - 100_000..] == Recent(fills)
  {
  }

  lemma CleanQuantity(quantities: map<Symbol, real>, s: Symbol)
    ensures Quantity(CleanMap(quantities), s) == Clean(Quantity(quantities, s))
  {
  }

  /** Every symbol's signed fills and position agree, and nothing is unresolved. */
  ghost predicate Matches(fills: seq<FillRecord>, positions: seq<Position>, orders: seq<OrderRecord>) {
    && (forall s :: Clean(SignedQuantity(Recent(fills), s)) == Clean(Quantity(BrokerQuantities(positions), s)))
    && (forall o :: o in orders ==> !o.status.NeedsReconciliation?)
  }

  /**
    The comparison reports a match exactly when every symbol's signed fills and position agree and
    nothing is unresolved.
   */
  method Compare(fills: seq<FillRecord>, positions: seq<Position>, orders: seq<OrderRecord>) returns (report: Report)
    ensures report.matched <==> Matches(fills, positions, orders)
    ensures forall s :: s in report.discrepancies <==>
              Clean(SignedQuantity(Recent(fills), s)) != Clean(Quantity(BrokerQuantities(positions), s))
    ensures report.unresolved == Unresolved(orders)
    ensures forall s :: s in report.expected ==> report.expected[s] == SignedQuantity(Recent(fills), s)
    ensures forall s :: s in report.broker ==> report.broker[s] == Quantity(BrokerQuantities(positions), s)
    ensures forall s :: s in report.discrepancies ==> s in report.expected || s in report.broker
  {
    var expected := ExpectedPositions(Recent(fills));
    var clean, broker := CleanMap(expected), CleanMap(BrokerQuantities(positions));
    var discrepancies := set s | s in clean.Keys + broker.Keys && Quantity(clean, s) != Quantity(broker, s);
    var unresolved := Unresolved(orders);
    report := Report(discrepancies == {} && unresolved == [], clean, broker, discrepancies, unresolved);
    UnresolvedEmptyIff(orders);
    assert forall s :: s in clean ==> clean[s] == Quantity(expected, s);
    forall s
      ensures s in discrepancies <==>
              Clean(SignedQuantity(Recent(fills), s)) != Clean(Quantity(BrokerQuantities(positions), s))
    {
      CleanQuantity(expected, s);
      CleanQuantity(BrokerQuantities(positions), s);
    }
  }

  /** The reported position of every symbol is its holding. */
  lemma SnapshotQuantities(positions: seq<Position>, holdings: map<Symbol, Holding>, s: Symbol)
    requires BySymbol(positions) == Held(holdings)
    requires HoldingOf(holdings, s).quantity >= 0.0
    ensures Quantity(BrokerQuantities(positions), s) == HoldingOf(holdings, s).quantity
  {
    hide BySymbol;
  }

  /** A paper session in agreement matches its own snapshot. */
  lemma AgreementMatches(cfg: Config, s: Paper, positions: seq<Position>)
    requires Inv(cfg, s) && !s.evicted && |s.fills| <= FILL_LIMIT
    requires BySymbol(positions) == Held(s.account.holdings)
    ensures Matches(s.fills, positions, s.orders)
  {
    hide InLedger, KeyedFill, BySymbol, SignedQuantity, Held;
    forall sym
      ensures SignedQuantity(Recent(s.fills), sym) == Quantity(BrokerQuantities(positions), sym)
    {
      SnapshotQuantities(positions, s.account.holdings, sym);
    }
  }

  /**
    Main result: after every paper run whose ledger has dropped nothing and is no longer than the
    comparison looks back, the session's fills match the account's own positions.
   */
  lemma EveryRunMatches(cfg: Config, initialCash: real, ops: seq<Op>, positions: seq<Position>)
    requires initialCash >= 0.0 && ValidOps(ops)
    ensures Inv(cfg, Opening(initialCash))
    ensures var s := Run(cfg, Opening(initialCash), ops);
            !s.evicted && |s.fills| <= FILL_LIMIT && BySymbol(positions) == Held(s.account.holdings)
            ==> Matches(s.fills, positions, s.orders)
  {
    OpeningInv(cfg, initialCash);
    var s := Run(cfg, Opening(initialCash), ops);
    if !s.evicted && |s.fills| <= FILL_LIMIT && BySymbol(positions) == Held(s.account.holdings) {
      AgreementMatches(cfg, s, positions);
    }
  }

  /** The same for the objects: value the account, then compare, and the report is a match. */
  method RunSession(broker: Broker) returns (report: Report)
    requires broker.Valid()
    requires !broker.evicted && |broker.store.fills| <= FILL_LIMIT
    modifies broker.account
    ensures report.matched && report.discrepancies == {} && report.unresolved == []
    ensures broker.Valid() && broker.View() == old(broker.View()).(saved := broker.View().saved)
  {
    var snap := broker.PortfolioSnapshot();
    report := Compare(broker.store.fills, snap.positions, broker.store.orders);
    AgreementMatches(broker.cfg, broker.View(), snap.positions);
    UnresolvedEmptyIff(broker.store.orders);
  }
}
