/**
  The submission protocol as a state machine. Everything between two awaits is one step: a submit
  runs from its risk check up to the broker call in one step, and from the broker's answer to its
  end in another; cancels and reconciliation passes are split in the same way, and any number of
  them interleave. The broker's answers are arbitrary.
 */
module Submission {
  import opened Domain
  import opened Store
  import opened Approvals
  import Reconcile

  datatype Mode = PaperMode | Sandbox | Live

  datatype Settings = Settings(
    mode: Mode,
    brokerConfigured: bool,
    reconciliationEnabled: bool,
    liveTradingEnabled: bool,
    liveRequiresConfirmation: bool,
    requireDistinctApprover: bool,
    limits: Reconcile.Limits)

  /**
    What became of a broker call: still waiting, accepted, ambiguous, definitely failed, or broken off
    by another exception.
   */
  datatype Outcome = Waiting | Placed | Ambiguous | Failed | BrokenOff

  /** One hand-over to the broker, with the facts of the moment it was made. */
  datatype Call = Call(
    intent: OrderIntent,
    automated: bool,
    actor: string,
    approval: Option<ApprovalId>,
    riskApproved: bool,
    rejectedAtExecution: bool,
    wasReady: bool,
    tableWasClean: bool,
    outcome: Outcome)

  /** A cancel that waits for the broker, with the record it was started for. */
  datatype CancelCall = CancelCall(target: OrderRecord, waiting: bool)

  datatype State = State(
    orders: seq<OrderRecord>,
    fills: seq<FillRecord>,
    claims: set<string>,
    ready: bool,
    approvals: Repository,
    calls: seq<Call>,
    cancels: seq<CancelCall>)

  /** The request that starts a submit; the verdicts of the risk checks are inputs. */
  datatype SubmitRequest = SubmitRequest(
    intent: OrderIntent,
    riskApproved: bool,
    automated: bool,
    actor: string,
    approval: Option<ApprovalId>,
    rejectedAtExecution: bool,
    now: int)

  datatype Answer =
    | Success(order: OrderRecord)
    | Unknown(id: OrderId, message: string, now: int)
    | DefiniteFailure
    | OtherException

  datatype Action =
    | Submit(request: SubmitRequest)
    | SubmitAnswer(call: nat, answer: Answer)
    | Cancel(key: Lookup)
    | CancelAnswer(cancel: nat, answer: Answer)
    | ReconcilePass(remotes: seq<OrderRecord>)
    | ReconcileBroken(remotes: seq<OrderRecord>)
    | ClearReady
    | CreateApproval(id: ApprovalId, intent: OrderIntent, createdBy: string, ttlSeconds: nat, now: int)

  // ---------------------------------------------------------------- the execution policy

  /** The checks before any approval is looked at. */
  predicate GateOpen(cfg: Settings, ready: bool, automated: bool) {
    || cfg.mode.PaperMode?
    || (&& cfg.brokerConfigured
        && !(cfg.mode.Live? && automated)
        && (cfg.reconciliationEnabled ==> ready)
        && (cfg.mode.Live? ==> cfg.liveTradingEnabled))
  }

  predicate NeedsApproval(cfg: Settings) {
    cfg.mode.Live? && cfg.liveRequiresConfirmation
  }

  function ApprovalRequest(cfg: Settings, r: SubmitRequest): Request
    requires r.approval.Some?
  {
    Request(r.approval.value, r.intent, r.now, r.actor, cfg.requireDistinctApprover)
  }

  /** The whole policy passes. */
  predicate PolicyPasses(cfg: Settings, s: State, r: SubmitRequest) {
    && GateOpen(cfg, s.ready, r.automated)
    && (NeedsApproval(cfg) ==> r.approval.Some? && Consumed(s.approvals, ApprovalRequest(cfg, r)).1.None?)
  }

  function ApprovalsAfter(cfg: Settings, s: State, r: SubmitRequest): Repository {
    if NeedsApproval(cfg) && r.approval.Some? then Consumed(s.approvals, ApprovalRequest(cfg, r)).0 else s.approvals
  }

  // ---------------------------------------------------------------- the steps

  function ClaimOf(intent: OrderIntent): set<string> {
    if Present(intent.clientOrderId) then {intent.clientOrderId.value} else {}
  }

  ghost predicate Clean(orders: seq<OrderRecord>) {
    Reconcile.NoneUnresolved(orders)
  }

  /** The first half of a submit: risk, policy, claim, execution-time checks, hand-over. */
  ghost function SubmitStep(cfg: Settings, s: State, r: SubmitRequest): State {
    if !r.riskApproved || !PolicyPasses(cfg, s, r) then s
    else
      var s' := s.(approvals := ApprovalsAfter(cfg, s, r));
      if ClaimOf(r.intent) * s.claims != {} || r.rejectedAtExecution then s'
      else
        s'.(claims := s.claims + ClaimOf(r.intent),
            calls := s.calls + [Call(r.intent, r.automated, r.actor, if NeedsApproval(cfg) then r.approval else None,
                                     r.riskApproved, r.rejectedAtExecution, s.ready, Clean(s.orders), Waiting)])
  }

  function UnknownOrder(intent: OrderIntent, id: OrderId, message: string, now: int): OrderRecord {
    OrderRecord(id, None, intent.clientOrderId, intent.symbol, intent.side, intent.quantity, 0.0, intent.orderType,
                intent.price, None, intent.stopLoss, intent.takeProfit, NeedsReconciliation, intent.source,
                Some(message), None, now, now)
  }

  function OutcomeOf(answer: Answer): Outcome {
    match answer
    case Success(_) => Placed
    case Unknown(_, _, _) => Ambiguous
    case DefiniteFailure => Failed
    case OtherException => BrokenOff
  }

  /** The second half of a submit. */
  ghost function SubmitAnswerStep(cfg: Settings, s: State, i: nat, answer: Answer): State {
    if i >= |s.calls| || !s.calls[i].outcome.Waiting? then s
    else
      var call := s.calls[i];
      var s' := s.(calls := s.calls[i := call.(outcome := OutcomeOf(answer))]);
      match answer
      case Success(order) =>
        s'.(orders := Upsert(s.orders, order, cfg.limits.maxOrders),
            fills := RecordFill(s.fills, order, "submission", cfg.limits.maxFills))
      case Unknown(id, message, now) =>
        s'.(orders := Upsert(s.orders, UnknownOrder(call.intent, id, message, now), cfg.limits.maxOrders),
            ready := false)
      case DefiniteFailure => s'.(claims := s.claims - ClaimOf(call.intent))
      case OtherException => s'
  }

  /**
    The first half of a cancel: find the order by its local or broker id; outside paper mode it must
    have a broker id.
   */
  ghost function CancelStep(cfg: Settings, s: State, key: Lookup): State {
    var i := Find(s.orders, key);
    if i == |s.orders| || (!cfg.mode.PaperMode? && !Present(s.orders[i].brokerOrderId)) then s
    else s.(cancels := s.cancels + [CancelCall(s.orders[i], true)])
  }

  /** The broker's cancelled order under its local identity. */
  function CancelMerge(target: OrderRecord, remote: OrderRecord): OrderRecord {
    remote.(id := target.id,
            brokerOrderId := OrElse(remote.brokerOrderId, target.brokerOrderId),
            clientOrderId := OrElse(target.clientOrderId, remote.clientOrderId),
            source := target.source,
            correlationId := OrElse(target.correlationId, remote.correlationId),
            createdAt := target.createdAt)
  }

  function UnknownCancel(target: OrderRecord, message: string, now: int): OrderRecord {
    target.(status := NeedsReconciliation, message := Some(message), updatedAt := now)
  }

  ghost function CancelAnswerStep(cfg: Settings, s: State, i: nat, answer: Answer): State {
    if i >= |s.cancels| || !s.cancels[i].waiting then s
    else
      var target := s.cancels[i].target;
      var s' := s.(cancels := s.cancels[i := CancelCall(target, false)]);
      match answer
      case Success(remote) =>
        s'.(orders := Upsert(s.orders, CancelMerge(target, remote), cfg.limits.maxOrders),
            fills := RecordFill(s.fills, CancelMerge(target, remote), "cancel", cfg.limits.maxFills))
      case Unknown(_, message, now) =>
        s'.(orders := Upsert(s.orders, UnknownCancel(target, message, now), cfg.limits.maxOrders), ready := false)
      case _ => s'
  }

  ghost function Next(cfg: Settings, s: State, a: Action): State {
    match a
    case Submit(r) => SubmitStep(cfg, s, r)
    case SubmitAnswer(i, answer) => SubmitAnswerStep(cfg, s, i, answer)
    case Cancel(key) => CancelStep(cfg, s, key)
    case CancelAnswer(i, answer) => CancelAnswerStep(cfg, s, i, answer)
    case ReconcilePass(remotes) =>
      var pass := Reconcile.Pass(cfg.limits, s.orders, s.fills, remotes);
      s.(orders := pass.orders, fills := pass.fills, ready := Clean(pass.orders))
    case ReconcileBroken(remotes) =>
      // A pass that raises part-way has merged some remote orders and not reached the flag.
      var part := Reconcile.AbsorbAll(cfg.limits, Reconcile.Progress(s.orders, s.fills, 0, 0, 0), remotes);
      s.(orders := part.orders, fills := part.fills)
    case ClearReady => s.(ready := false)
    case CreateApproval(id, intent, createdBy, ttl, now) =>
      if id in s.approvals then s
      else s.(approvals := s.approvals[id := Approval(Sha256(intent), createdBy, now, now + ttl, None, None)])
  }

  ghost function Run(cfg: Settings, s: State, actions: seq<Action>): State {
    if |actions| == 0 then s
    else Next(cfg, Run(cfg, s, actions[..|actions| - 1]), actions[|actions| - 1])
  }

  const INITIAL := State([], [], {}, false, map[], [], [])

  // ---------------------------------------------------------------- exactly when an order is handed over

  /** An approval that covers the submit, where live trading requires one. */
  ghost predicate Covered(cfg: Settings, s: State, r: SubmitRequest) {
    && r.approval.Some? && r.approval.value in s.approvals
    && var a := s.approvals[r.approval.value];
    && a.consumedAt.None? && r.now < a.expiresAt && a.fingerprint == Sha256(r.intent)
    && (cfg.requireDistinctApprover ==> a.createdBy != r.actor)
  }

  /**
    What the mode asks for: nothing on paper, a broker and readiness otherwise, and live the switches
    and the approval too.
   */
  ghost predicate ModeAllows(cfg: Settings, s: State, r: SubmitRequest) {
    match cfg.mode
    case PaperMode => true
    case Sandbox => cfg.brokerConfigured && (cfg.reconciliationEnabled ==> s.ready)
    case Live =>
      && cfg.brokerConfigured && (cfg.reconciliationEnabled ==> s.ready)
      && !r.automated && cfg.liveTradingEnabled && (cfg.liveRequiresConfirmation ==> Covered(cfg, s, r))
  }

  /**
    Main result: a submit is handed to the broker exactly when risk approved it, the mode allows it, its
    client order id is free and the checks at execution did not reject it; then one call with its own
    terms is added and its client order id claimed, and nothing else about orders, fills or readiness moves.
   */
  lemma HandedOverIff(cfg: Settings, s: State, r: SubmitRequest)
    ensures var after := SubmitStep(cfg, s, r);
            var free := !(r.intent.clientOrderId.Some? && r.intent.clientOrderId.value != ""
                          && r.intent.clientOrderId.value in s.claims);
            && (|after.calls| == |s.calls| + 1 <==>
                  r.riskApproved && ModeAllows(cfg, s, r) && free && !r.rejectedAtExecution)
            && (|after.calls| == |s.calls| || |after.calls| == |s.calls| + 1)
            && after.orders == s.orders && after.fills == s.fills && after.ready == s.ready
            && after.cancels == s.cancels
            && (|after.calls| == |s.calls| ==> after.calls == s.calls && after.claims == s.claims)
            && (|after.calls| == |s.calls| + 1 ==>
                  && after.calls[..|s.calls|] == s.calls
                  && var call := after.calls[|s.calls|];
                  && call.intent == r.intent && call.actor == r.actor && call.automated == r.automated
                  && call.outcome.Waiting? && call.tableWasClean == Clean(s.orders)
                  && call.approval == (if cfg.mode.Live? && cfg.liveRequiresConfirmation then r.approval else None)
                  && after.claims == s.claims + if r.intent.clientOrderId.Some? && r.intent.clientOrderId.value != ""
                                                then {r.intent.clientOrderId.value} else {})
  {
    if r.approval.Some? {
      GrantedIff(s.approvals, ApprovalRequest(cfg, r));
    }
    assert PolicyPasses(cfg, s, r) <==> ModeAllows(cfg, s, r);
    hide Consumed, PolicyPasses, ModeAllows, Clean;
    if r.intent.clientOrderId.Some? && r.intent.clientOrderId.value != "" && r.intent.clientOrderId.value in s.claims {
      assert r.intent.clientOrderId.value in ClaimOf(r.intent) * s.claims;
    } else {
      assert ClaimOf(r.intent) * s.claims == {};
    }
  }

  /** An approval is spent by a submit exactly when risk and mode let it pass, whatever happens to it afterwards. */
  lemma ApprovalSpentIff(cfg: Settings, s: State, r: SubmitRequest)
    requires cfg.mode.Live? && cfg.liveRequiresConfirmation
    ensures SubmitStep(cfg, s, r).approvals != s.approvals <==> r.riskApproved && ModeAllows(cfg, s, r)
  {
    if r.approval.Some? {
      GrantedIff(s.approvals, ApprovalRequest(cfg, r));
      if Consumed(s.approvals, ApprovalRequest(cfg, r)).1.None? {
        GrantedConsume(s.approvals, ApprovalRequest(cfg, r));
      }
    }
    hide Clean;
  }

  /** What cleared a call: risk, the checks at execution, and the switches of the mode. */
  ghost predicate Cleared(cfg: Settings, call: Call) {
    && call.riskApproved && !call.rejectedAtExecution
    && (!cfg.mode.PaperMode? ==> cfg.brokerConfigured && (cfg.reconciliationEnabled ==> call.wasReady))
    && (cfg.mode.Live? ==> cfg.liveTradingEnabled && !call.automated)
  }

  ghost predicate AllCleared(cfg: Settings, s: State) {
    forall i :: 0 <= i < |s.calls| ==> Cleared(cfg, s.calls[i])
  }

  lemma StepKeepsCleared(cfg: Settings, s: State, a: Action)
    requires AllCleared(cfg, s)
    ensures AllCleared(cfg, Next(cfg, s, a))
  {
    if a.Submit? {
      hide Clean, Consumed;
    } else {
      OtherStepShape(cfg, s, a);
      hide Next;
    }
  }

  lemma {:induction false} ClearedInEveryRun(cfg: Settings, actions: seq<Action>)
    ensures AllCleared(cfg, Run(cfg, INITIAL, actions))
  {
    if |actions| > 0 {
      hide Next, AllCleared;
      ClearedInEveryRun(cfg, actions[..|actions| - 1]);
      StepKeepsCleared(cfg, Run(cfg, INITIAL, actions[..|actions| - 1]), actions[|actions| - 1]);
    }
  }

  /**
    Main result: in every run, each order handed to the broker was approved by risk and not rejected at
    execution; outside paper mode a broker was configured and, where reconciliation is enabled, the
    system was ready; in live mode live trading was enabled and the submit was not automated.
   */
  lemma EveryCallWasCleared(cfg: Settings, actions: seq<Action>, i: nat)
    requires i < |Run(cfg, INITIAL, actions).calls|
    ensures var call := Run(cfg, INITIAL, actions).calls[i];
            && call.riskApproved && !call.rejectedAtExecution
            && (!cfg.mode.PaperMode? ==> cfg.brokerConfigured && (cfg.reconciliationEnabled ==> call.wasReady))
            && (cfg.mode.Live? ==> cfg.liveTradingEnabled && !call.automated)
  {
    ClearedInEveryRun(cfg, actions);
  }

  // ---------------------------------------------------------------- what an answer leaves behind

  /** The record of a submit whose outcome is unknown: its own terms, unfilled and unresolved, under no broker id. */
  ghost predicate Unresolved(o: OrderRecord, intent: OrderIntent, id: OrderId) {
    && o.id == id && o.brokerOrderId.None? && o.clientOrderId == intent.clientOrderId && o.symbol == intent.symbol
    && o.side == intent.side && o.quantity == intent.quantity && o.orderType == intent.orderType
    && o.price == intent.price
    && o.stopLoss == intent.stopLoss && o.takeProfit == intent.takeProfit && o.source == intent.source
    && o.filledQuantity == 0.0 && o.averageFillPrice.None? && o.status.NeedsReconciliation?
  }

  /**
    What the four answers to a submit do: success stores the broker's record and keeps the claim; an
    unknown outcome stores an unresolved record, clears readiness and keeps the claim; a definite failure
    only gives the claim back; any other exception changes nothing but the call.
   */
  lemma AnswerOutcome(cfg: Settings, s: State, i: nat, answer: Answer)
    requires i < |s.calls| && s.calls[i].outcome.Waiting? && cfg.limits.maxOrders > 0
    ensures var after, intent := SubmitAnswerStep(cfg, s, i, answer), s.calls[i].intent;
            && after.approvals == s.approvals && after.cancels == s.cancels
            && match answer
               case Success(order) =>
                 && order in after.orders && after.claims == s.claims && after.ready == s.ready
                 && after.fills == RecordFill(s.fills, order, "submission", cfg.limits.maxFills)
                 && after.calls[i].outcome.Placed?
               case Unknown(id, _, _) =>
                 && (exists o :: o in after.orders && Unresolved(o, intent, id))
                 && !after.ready && after.claims == s.claims && after.fills == s.fills
                 && after.calls[i].outcome.Ambiguous?
               case DefiniteFailure =>
                 && after == s.(calls := after.calls, claims := after.claims) && after.calls[i].outcome.Failed?
                 && (forall c :: c in after.claims <==> c in s.claims && (c == "" || intent.clientOrderId != Some(c)))
               case OtherException => after == s.(calls := after.calls) && after.calls[i].outcome.BrokenOff?
  {
    match answer {
      case Success(order) => UpsertStores(s.orders, order, cfg.limits.maxOrders);
      case Unknown(id, message, now) =>
        var o := UnknownOrder(s.calls[i].intent, id, message, now);
        UpsertStores(s.orders, o, cfg.limits.maxOrders);
        assert Unresolved(o, s.calls[i].intent, id);
      case _ =>
    }
    hide Upsert, RecordFill;
  }

  /** The cancelled record: economic facts from the broker, identity from the local order. */
  ghost predicate Cancelled(o: OrderRecord, target: OrderRecord, remote: OrderRecord) {
    && o.id == target.id && o.source == target.source && o.createdAt == target.createdAt
    && o.symbol == remote.symbol && o.side == remote.side && o.quantity == remote.quantity && o.price == remote.price
    && o.filledQuantity == remote.filledQuantity && o.averageFillPrice == remote.averageFillPrice
    && o.orderType == remote.orderType && o.status == remote.status
    && o.stopLoss == remote.stopLoss && o.takeProfit == remote.takeProfit && o.message == remote.message
    && (if Present(remote.brokerOrderId) then o.brokerOrderId == remote.brokerOrderId
        else o.brokerOrderId == target.brokerOrderId)
    && (if Present(target.clientOrderId) then o.clientOrderId == target.clientOrderId
        else o.clientOrderId == remote.clientOrderId)
    && (if Present(target.correlationId) then o.correlationId == target.correlationId
        else o.correlationId == remote.correlationId)
    && o.updatedAt == remote.updatedAt
  }

  /**
    A successful cancel stores the merged record; an unknown one marks the order and clears readiness;
    a failed one does nothing.
   */
  lemma CancelAnswerOutcome(cfg: Settings, s: State, i: nat, answer: Answer)
    requires i < |s.cancels| && s.cancels[i].waiting && cfg.limits.maxOrders > 0
    ensures var after, target := CancelAnswerStep(cfg, s, i, answer), s.cancels[i].target;
            && after.approvals == s.approvals && after.calls == s.calls && after.claims == s.claims
            && !after.cancels[i].waiting
            && match answer
               case Success(remote) =>
                 && after.ready == s.ready
                 && exists o :: o in after.orders && Cancelled(o, target, remote)
                                && after.fills == RecordFill(s.fills, o, "cancel", cfg.limits.maxFills)
               case Unknown(_, message, now) =>
                 && !after.ready && after.fills == s.fills
                 && target.(status := NeedsReconciliation, message := Some(message), updatedAt := now) in after.orders
               case _ => after == s.(cancels := after.cancels)
  {
    var target := s.cancels[i].target;
    match answer {
      case Success(remote) =>
        UpsertStores(s.orders, CancelMerge(target, remote), cfg.limits.maxOrders);
        assert Cancelled(CancelMerge(target, remote), target, remote);
      case Unknown(_, message, now) =>
        UpsertStores(s.orders, UnknownCancel(target, message, now), cfg.limits.maxOrders);
      case _ =>
    }
    hide Upsert, RecordFill;
  }

  /** The first order in the table that carries the local or the broker id. */
  ghost predicate FirstNamed(orders: seq<OrderRecord>, local: Option<OrderId>, text: string, i: int) {
    && 0 <= i < |orders| && (local == Some(orders[i].id) || orders[i].brokerOrderId == Some(text))
    && forall j :: 0 <= j < i ==> local != Some(orders[j].id) && orders[j].brokerOrderId != Some(text)
  }

  /** A cancel waits for the broker exactly when the order is found and, outside paper mode, carries a broker id. */
  lemma CancelGoesOutIff(cfg: Settings, s: State, local: Option<OrderId>, text: string, i: int)
    ensures var after := CancelStep(cfg, s, ByEither(local, text));
            && after == s.(cancels := after.cancels)
            && (FirstNamed(s.orders, local, text, i) ==>
                  after.cancels == s.cancels + if cfg.mode.PaperMode? || Present(s.orders[i].brokerOrderId)
                                               then [CancelCall(s.orders[i], true)] else [])
            && ((forall o :: o in s.orders ==> local != Some(o.id) && o.brokerOrderId != Some(text)) ==>
                  after.cancels == s.cancels)
  {
    var key := ByEither(local, text);
    if FirstNamed(s.orders, local, text, i) {
      FindIsFirst(s.orders, key, i);
    }
    var k := Find(s.orders, key);
    if k < |s.orders| {
      assert s.orders[k] in s.orders && Matches(s.orders[k], key);
    }
    assert s.cancels + [] == s.cancels;
    hide Find;
  }

  /** The other steps in words: a new approval and its expiry, what a pass leaves, and a cleared flag. */
  lemma OtherStepsInWords(cfg: Settings, s: State, id: ApprovalId, intent: OrderIntent, author: string, ttl: nat,
                          now: int, remotes: seq<OrderRecord>)
    ensures id !in s.approvals ==>
              Next(cfg, s, CreateApproval(id, intent, author, ttl, now))
              == s.(approvals := s.approvals[id := Approval(Sha256(intent), author, now, now + ttl, None, None)])
    ensures id in s.approvals ==> Next(cfg, s, CreateApproval(id, intent, author, ttl, now)) == s
    ensures Next(cfg, s, ClearReady) == s.(ready := false)
    ensures var pass := Reconcile.Pass(cfg.limits, s.orders, s.fills, remotes);
            Next(cfg, s, ReconcilePass(remotes))
            == s.(orders := pass.orders, fills := pass.fills,
                  ready := forall o :: o in pass.orders ==> o.status != NeedsReconciliation)
    ensures var part := Reconcile.AbsorbAll(cfg.limits, Reconcile.Progress(s.orders, s.fills, 0, 0, 0), remotes);
            Next(cfg, s, ReconcileBroken(remotes)) == s.(orders := part.orders, fills := part.fills)
  {
    hide Reconcile.Pass, Reconcile.AbsorbAll;
  }

  // ---------------------------------------------------------------- one live call per client order id

  /** The call may have reached the broker's book: anything but a definite failure. */
  predicate MayHavePlaced(call: Call) {
    !call.outcome.Failed?
  }

  /** A claim is held exactly for the client ids of the calls that may have placed an order, one call each. */
  ghost predicate ClaimsExact(s: State) {
    && (forall c :: c in s.claims <==>
          exists i :: 0 <= i < |s.calls| && MayHavePlaced(s.calls[i]) && c in ClaimOf(s.calls[i].intent))
    && (forall i, j :: 0 <= i < j < |s.calls| && MayHavePlaced(s.calls[i]) && MayHavePlaced(s.calls[j])
          ==> ClaimOf(s.calls[i].intent) !! ClaimOf(s.calls[j].intent))
  }

  lemma SubmitKeepsClaims(cfg: Settings, s: State, r: SubmitRequest)
    requires ClaimsExact(s)
    ensures ClaimsExact(SubmitStep(cfg, s, r))
  {
    var after := SubmitStep(cfg, s, r);
    if |after.calls| > |s.calls| {
      var last := after.calls[|s.calls|];
      assert forall i :: 0 <= i < |s.calls| ==> after.calls[i] == s.calls[i];
      forall c
        ensures c in after.claims <==>
                exists i :: 0 <= i < |after.calls| && MayHavePlaced(after.calls[i])
                            && c in ClaimOf(after.calls[i].intent)
      {
        if c in s.claims {
          var i :| 0 <= i < |s.calls| && MayHavePlaced(s.calls[i]) && c in ClaimOf(s.calls[i].intent);
          assert after.calls[i] == s.calls[i];
        } else if c in ClaimOf(r.intent) {
          assert MayHavePlaced(after.calls[|s.calls|]);
        }
      }
      forall i | 0 <= i < |s.calls| && MayHavePlaced(s.calls[i])
        ensures ClaimOf(s.calls[i].intent) !! ClaimOf(last.intent)
      {
        assert forall c :: c in ClaimOf(s.calls[i].intent) ==> c in s.claims;
      }
    }
  }

  /** Settling a call as anything but failed keeps its claim. */
  lemma SettledKeepsClaims(s: State, s': State, k: nat, outcome: Outcome)
    requires ClaimsExact(s) && k < |s.calls| && s.calls[k].outcome.Waiting? && !outcome.Failed?
    requires s'.claims == s.claims && s'.calls == s.calls[k := s.calls[k].(outcome := outcome)]
    ensures ClaimsExact(s')
  {
    assert forall i :: 0 <= i < |s.calls| ==>
             s'.calls[i].intent == s.calls[i].intent && MayHavePlaced(s'.calls[i]) == MayHavePlaced(s.calls[i]);
    hide MayHavePlaced, ClaimOf;
  }

  /** A definite failure gives up the claim, which no other call holds. */
  lemma FailureReleasesClaim(s: State, s': State, k: nat)
    requires ClaimsExact(s) && k < |s.calls| && s.calls[k].outcome.Waiting?
    requires s'.claims == s.claims - ClaimOf(s.calls[k].intent)
    requires s'.calls == s.calls[k := s.calls[k].(outcome := Failed)]
    ensures ClaimsExact(s')
  {
    assert MayHavePlaced(s.calls[k]) && !MayHavePlaced(s'.calls[k]);
    assert forall i :: 0 <= i < |s.calls| ==>
             s'.calls[i].intent == s.calls[i].intent && (i != k ==> s'.calls[i] == s.calls[i]);
    hide MayHavePlaced, ClaimOf;
    forall c
      ensures c in s'.claims <==>
              exists i :: 0 <= i < |s'.calls| && MayHavePlaced(s'.calls[i]) && c in ClaimOf(s'.calls[i].intent)
    {
      if c in s.claims {
        var i :| 0 <= i < |s.calls| && MayHavePlaced(s.calls[i]) && c in ClaimOf(s.calls[i].intent);
        assert i == k || MayHavePlaced(s'.calls[i]);
      }
      if i :| 0 <= i < |s'.calls| && MayHavePlaced(s'.calls[i]) && c in ClaimOf(s'.calls[i].intent) {
        assert MayHavePlaced(s.calls[i]) && ClaimOf(s.calls[i].intent) !! ClaimOf(s.calls[k].intent);
      }
    }
  }

  lemma AnswerKeepsClaims(cfg: Settings, s: State, k: nat, answer: Answer)
    requires ClaimsExact(s)
    ensures ClaimsExact(SubmitAnswerStep(cfg, s, k, answer))
  {
    hide ClaimsExact, Upsert, RecordFill, UnknownOrder;
    if k < |s.calls| && s.calls[k].outcome.Waiting? {
      if answer.DefiniteFailure? {
        FailureReleasesClaim(s, SubmitAnswerStep(cfg, s, k, answer), k);
      } else {
        SettledKeepsClaims(s, SubmitAnswerStep(cfg, s, k, answer), k, OutcomeOf(answer));
      }
    }
  }

  lemma OtherStepKeepsCalls(cfg: Settings, s: State, a: Action)
    requires !a.Submit? && !a.SubmitAnswer?
    ensures Next(cfg, s, a).calls == s.calls && Next(cfg, s, a).claims == s.claims
  {
  }

  lemma {:induction false} ClaimsExactInEveryRun(cfg: Settings, actions: seq<Action>)
    ensures ClaimsExact(Run(cfg, INITIAL, actions))
  {
    if |actions| > 0 {
      var before, a := Run(cfg, INITIAL, actions[..|actions| - 1]), actions[|actions| - 1];
      ClaimsExactInEveryRun(cfg, actions[..|actions| - 1]);
      hide SubmitStep, SubmitAnswerStep, CancelStep, CancelAnswerStep;
      match a {
        case Submit(r) => SubmitKeepsClaims(cfg, before, r);
        case SubmitAnswer(i, answer) => AnswerKeepsClaims(cfg, before, i, answer);
        case _ => OtherStepKeepsCalls(cfg, before, a);
      }
    }
  }

  /**
    Main result: under every interleaving, at most one broker call per client order id is waiting,
    accepted, ambiguous or broken off; all the others have definitely failed.
   */
  lemma OneLiveCallPerClientId(cfg: Settings, actions: seq<Action>, i: nat, j: nat)
    requires i < j < |Run(cfg, INITIAL, actions).calls|
    requires var calls := Run(cfg, INITIAL, actions).calls;
             Present(calls[i].intent.clientOrderId) && calls[i].intent.clientOrderId == calls[j].intent.clientOrderId
    ensures var calls := Run(cfg, INITIAL, actions).calls; calls[i].outcome.Failed? || calls[j].outcome.Failed?
  {
    ClaimsExactInEveryRun(cfg, actions);
    var calls := Run(cfg, INITIAL, actions).calls;
    assert calls[i].intent.clientOrderId.value in ClaimOf(calls[i].intent) * ClaimOf(calls[j].intent);
  }

  /** A claim disappears only in the step where a call that holds it learns of its definite failure. */
  lemma ReleasedOnlyByItsCall(cfg: Settings, s: State, a: Action, c: string)
    requires c in s.claims && c !in Next(cfg, s, a).claims
    ensures a.SubmitAnswer? && a.answer.DefiniteFailure? && a.call < |s.calls|
    ensures s.calls[a.call].outcome.Waiting? && s.calls[a.call].intent.clientOrderId == Some(c)
  {
  }

  // ---------------------------------------------------------------- the readiness gate

  /** Records that the broker supplies never carry the local status NEEDS_RECONCILIATION. */
  predicate BrokerRecordsOnly(a: Action) {
    match a
    case SubmitAnswer(_, Success(order)) => !order.status.NeedsReconciliation?
    case CancelAnswer(_, Success(order)) => !order.status.NeedsReconciliation?
    case ReconcileBroken(remotes) => forall i :: 0 <= i < |remotes| ==> !remotes[i].status.NeedsReconciliation?
    case _ => true
  }

  ghost predicate ReadyMeansClean(s: State) {
    s.ready ==> Clean(s.orders)
  }

  lemma UpsertClean(orders: seq<OrderRecord>, o: OrderRecord, maxOrders: nat)
    requires Clean(orders)
    ensures !o.status.NeedsReconciliation? ==> Clean(Upsert(orders, o, maxOrders))
    ensures maxOrders > 0 ==> o in Upsert(orders, o, maxOrders)
  {
    if maxOrders > 0 {
      UpsertStores(orders, o, maxOrders);
    }
    var after := Upsert(orders, o, maxOrders);
    var i := Find(orders, ById(o.id));
    hide Find;
    if i < |orders| {
      assert after[i] == o;
      assert forall j :: 0 <= j < |after| && j != i ==> after[j] == orders[j];
    } else {
      var grown := orders + [o];
      assert forall j :: 0 <= j < |orders| ==> grown[j] == orders[j];
      assert forall x :: x in after ==> x in grown;
    }
  }

  lemma {:induction false} AbsorbAllClean(lim: Reconcile.Limits, p: Reconcile.Progress, remotes: seq<OrderRecord>)
    requires Clean(p.orders)
    requires forall i :: 0 <= i < |remotes| ==> !remotes[i].status.NeedsReconciliation?
    ensures Clean(Reconcile.AbsorbAll(lim, p, remotes).orders)
    decreases |remotes|
  {
    if |remotes| > 0 {
      UpsertClean(p.orders, Reconcile.Target(p.orders, remotes[0]), lim.maxOrders);
      AbsorbAllClean(lim, Reconcile.Absorb(lim, p, remotes[0]), remotes[1..]);
    }
  }

  lemma StepKeepsGate(cfg: Settings, s: State, a: Action)
    requires ReadyMeansClean(s) && BrokerRecordsOnly(a)
    ensures ReadyMeansClean(Next(cfg, s, a))
  {
    hide Clean, Upsert, RecordFill, Reconcile.AbsorbAll, Reconcile.Pass;
    if s.ready {
      match a {
        case SubmitAnswer(_, Success(order)) => UpsertClean(s.orders, order, cfg.limits.maxOrders);
        case CancelAnswer(i, Success(remote)) =>
          if i < |s.cancels| {
            UpsertClean(s.orders, CancelMerge(s.cancels[i].target, remote), cfg.limits.maxOrders);
          }
        case ReconcileBroken(remotes) =>
          AbsorbAllClean(cfg.limits, Reconcile.Progress(s.orders, s.fills, 0, 0, 0), remotes);
        case _ =>
      }
    }
  }

  ghost predicate Gated(cfg: Settings) {
    !cfg.mode.PaperMode? && cfg.reconciliationEnabled
  }

  ghost predicate HandedOverClean(s: State) {
    forall i :: 0 <= i < |s.calls| ==> s.calls[i].tableWasClean
  }

  lemma StepHandsOverClean(cfg: Settings, s: State, a: Action)
    requires Gated(cfg) && ReadyMeansClean(s) && HandedOverClean(s)
    ensures HandedOverClean(Next(cfg, s, a))
  {
    hide Clean;
  }

  predicate AllBrokerRecordsOnly(actions: seq<Action>) {
    forall i :: 0 <= i < |actions| ==> BrokerRecordsOnly(actions[i])
  }

  lemma {:induction false} GateInEveryRun(cfg: Settings, actions: seq<Action>)
    requires AllBrokerRecordsOnly(actions)
    ensures ReadyMeansClean(Run(cfg, INITIAL, actions))
    ensures Gated(cfg) ==> HandedOverClean(Run(cfg, INITIAL, actions))
  {
    if |actions| > 0 {
      GateInEveryRun(cfg, actions[..|actions| - 1]);
      StepKeepsGate(cfg, Run(cfg, INITIAL, actions[..|actions| - 1]), actions[|actions| - 1]);
      if Gated(cfg) {
        StepHandsOverClean(cfg, Run(cfg, INITIAL, actions[..|actions| - 1]), actions[|actions| - 1]);
      }
    }
  }

  /**
    Main result: with reconciliation enabled, whenever an order is handed to a non-paper broker no
    retained local order needs reconciliation.
   */
  lemma NeverHandedOverUnresolved(cfg: Settings, actions: seq<Action>, i: nat)
    requires !cfg.mode.PaperMode? && cfg.reconciliationEnabled && AllBrokerRecordsOnly(actions)
    requires i < |Run(cfg, INITIAL, actions).calls|
    ensures Run(cfg, INITIAL, actions).calls[i].tableWasClean
  {
    GateInEveryRun(cfg, actions);
  }

  /**
    The condition on broker records is exact: from a ready state, a successful answer keeps
    readiness truthful precisely when its record does not claim to need reconciliation.
   */
  lemma GateKeptIff(cfg: Settings, s: State, i: nat, order: OrderRecord)
    requires s.ready && Clean(s.orders) && cfg.limits.maxOrders > 0
    requires i < |s.calls| && s.calls[i].outcome.Waiting?
    ensures ReadyMeansClean(Next(cfg, s, SubmitAnswer(i, Success(order)))) <==> !order.status.NeedsReconciliation?
  {
    UpsertClean(s.orders, order, cfg.limits.maxOrders);
    hide Upsert, RecordFill;
  }

  // ---------------------------------------------------------------- one approval per live call

  /** The call is backed by an approval that was consumed for exactly its intent by its actor. */
  ghost predicate Backed(cfg: Settings, s: State, call: Call) {
    && call.approval.Some? && call.approval.value in s.approvals
    && Vouches(s.approvals[call.approval.value], call.intent, call.actor, cfg.requireDistinctApprover)
    && !call.automated
  }

  ghost predicate AllBacked(cfg: Settings, s: State) {
    && (forall i :: 0 <= i < |s.calls| ==> Backed(cfg, s, s.calls[i]))
    && (forall i, j :: 0 <= i < j < |s.calls| ==> s.calls[i].approval != s.calls[j].approval)
  }

  /** Consuming or creating approvals never touches a consumed one. */
  lemma BackedStays(cfg: Settings, s: State, s': State, call: Call)
    requires Backed(cfg, s, call)
    requires forall id :: id in s.approvals && s.approvals[id].consumedAt.Some? ==>
               id in s'.approvals && s'.approvals[id] == s.approvals[id]
    ensures Backed(cfg, s', call)
  {
  }

  lemma SubmitKeepsBacked(cfg: Settings, s: State, r: SubmitRequest)
    requires NeedsApproval(cfg) && AllBacked(cfg, s)
    ensures AllBacked(cfg, SubmitStep(cfg, s, r))
  {
    var after := SubmitStep(cfg, s, r);
    if r.riskApproved && PolicyPasses(cfg, s, r) {
      GrantedConsume(s.approvals, ApprovalRequest(cfg, r));
      hide Consumed, Clean;
      forall i | 0 <= i < |s.calls|
        ensures Backed(cfg, after, s.calls[i]) && s.calls[i].approval != r.approval
      {
        assert Backed(cfg, s, s.calls[i]);
        BackedStays(cfg, s, after, s.calls[i]);
      }
    }
  }

  /** No other step adds a call, changes what a call was made with, or touches an existing approval. */
  lemma OtherStepShape(cfg: Settings, s: State, a: Action)
    requires !a.Submit?
    ensures var after := Next(cfg, s, a);
            && |after.calls| == |s.calls|
            && (forall i :: 0 <= i < |s.calls| ==> after.calls[i] == s.calls[i].(outcome := after.calls[i].outcome))
            && (forall id :: id in s.approvals ==> id in after.approvals && after.approvals[id] == s.approvals[id])
  {
    hide Upsert, RecordFill, Reconcile.AbsorbAll, Reconcile.Pass, Find, UnknownOrder, CancelMerge, UnknownCancel, Clean;
  }

  lemma OtherKeepsBacked(cfg: Settings, s: State, a: Action)
    requires AllBacked(cfg, s) && !a.Submit?
    ensures AllBacked(cfg, Next(cfg, s, a))
  {
    var after := Next(cfg, s, a);
    OtherStepShape(cfg, s, a);
    hide Next, Vouches;
    forall i | 0 <= i < |s.calls|
      ensures Backed(cfg, after, after.calls[i])
    {
      assert Backed(cfg, s, s.calls[i]);
    }
  }

  lemma {:induction false} BackedInEveryRun(cfg: Settings, actions: seq<Action>)
    requires NeedsApproval(cfg)
    ensures AllBacked(cfg, Run(cfg, INITIAL, actions))
  {
    if |actions| > 0 {
      var before, a := Run(cfg, INITIAL, actions[..|actions| - 1]), actions[|actions| - 1];
      BackedInEveryRun(cfg, actions[..|actions| - 1]);
      hide AllBacked;
      if a.Submit? {
        SubmitKeepsBacked(cfg, before, a.request);
      } else {
        OtherKeepsBacked(cfg, before, a);
      }
    }
  }

  /**
    Main result: with live confirmation required, every broker call of every run carries an
    approval that was consumed unexpired for exactly its intent by its actor, who is not the
    creator where distinctness is required; no two calls share an approval and none is automated.
   */
  lemma EveryLiveCallIsApproved(cfg: Settings, actions: seq<Action>, i: nat, j: nat)
    requires cfg.mode.Live? && cfg.liveRequiresConfirmation
    requires i < |Run(cfg, INITIAL, actions).calls| && j < |Run(cfg, INITIAL, actions).calls|
    ensures var s := Run(cfg, INITIAL, actions);
            var call := s.calls[i];
            && call.approval.Some? && call.approval.value in s.approvals && !call.automated
            && (i != j ==> call.approval != s.calls[j].approval)
            && var a := s.approvals[call.approval.value];
            && a.fingerprint == Sha256(call.intent) && a.consumedBy == Some(call.actor)
            && a.consumedAt.Some? && a.consumedAt.value < a.expiresAt
            && (cfg.requireDistinctApprover ==> a.createdBy != call.actor)
  {
    BackedInEveryRun(cfg, actions);
  }

  // ---------------------------------------------------------------- the service object

  /** How the first half of a submit ends. */
  datatype SubmitResult = HandedOver | Returned(existing: OrderRecord) | Raised

  /** How the second half of a submit or cancel ends. */
  datatype ResumeResult = Returns(order: OrderRecord) | Raises

  /** The record that an answer leads to, if any. */
  function RecordOf(intent: OrderIntent, answer: Answer): Option<OrderRecord> {
    match answer
    case Success(order) => Some(order)
    case Unknown(id, message, now) => Some(UnknownOrder(intent, id, message, now))
    case _ => None
  }

  function CancelRecordOf(target: OrderRecord, answer: Answer): Option<OrderRecord> {
    match answer
    case Success(remote) => Some(CancelMerge(target, remote))
    case Unknown(_, message, now) => Some(UnknownCancel(target, message, now))
    case _ => None
  }

  /**
    The caller gets the record, unless there is none or its fill is refused; a refused fill raises
    after the upsert.
   */
  predicate ResumesWith(result: ResumeResult, record: Option<OrderRecord>, fills: seq<FillRecord>, success: bool) {
    result == if record.Some? && !(success && InvalidIncrement(fills, record.value))
              then Returns(record.value) else Raises
  }

  class TradingService {
    const cfg: Settings
    const store: StateStore
    const approvals: ApprovalRepository
    ghost var calls: seq<Call>
    ghost var cancels: seq<CancelCall>

    ghost function View(): State
      reads this, store, approvals
    {
      State(store.orders, store.fills, store.clientOrderIds, store.reconciliationReady, approvals.items, calls, cancels)
    }

    ghost predicate Valid()
      reads this, store, approvals
    {
      && store.maxOrders == cfg.limits.maxOrders && store.maxFills == cfg.limits.maxFills
      && approvals.Valid() && DistinctIds(store.orders)
    }

    constructor (cfg: Settings, store: StateStore, approvals: ApprovalRepository)
      requires store.maxOrders == cfg.limits.maxOrders && store.maxFills == cfg.limits.maxFills
      requires approvals.Valid() && DistinctIds(store.orders)
      ensures Valid() && this.cfg == cfg && this.store == store && this.approvals == approvals
      ensures calls == [] && cancels == []
    {
      this.cfg, this.store, this.approvals := cfg, store, approvals;
      calls, cancels := [], [];
    }

    /** The execution policy; true when the submit may go on. An approval that passes is consumed. */
    method EnforcePolicy(r: SubmitRequest) returns (passes: bool)
      requires Valid()
      modifies approvals`items
      ensures Valid()
      ensures passes <==> PolicyPasses(cfg, old(View()), r)
      ensures passes ==> View() == old(View()).(approvals := ApprovalsAfter(cfg, old(View()), r))
      ensures !passes ==> View() == old(View())
    {
      if cfg.mode.PaperMode? {
        return true;
      }
      if !cfg.brokerConfigured || (cfg.mode.Live? && r.automated) {
        return false;
      }
      if cfg.reconciliationEnabled && !store.reconciliationReady {
        return false;
      }
      if cfg.mode.Sandbox? {
        return true;
      }
      if !cfg.liveTradingEnabled {
        return false;
      }
      if !cfg.liveRequiresConfirmation {
        return true;
      }
      if r.approval.Some? {
        var refusal := approvals.Consume(Request(r.approval.value, r.intent, r.now, r.actor,
                                                 cfg.requireDistinctApprover));
        return refusal.None?;
      }
      return false;
    }

    /** A submit up to the broker call. */
    method SubmitUntilCall(r: SubmitRequest) returns (result: SubmitResult)
      requires Valid()
      modifies this`calls, store`clientOrderIds, approvals`items
      ensures Valid() && View() == SubmitStep(cfg, old(View()), r)
      ensures result.HandedOver? <==> |calls| == |old(calls)| + 1
      ensures result.Returned? ==> result.existing in store.orders
      ensures result.Returned? ==> result.existing.clientOrderId == r.intent.clientOrderId
    {
      if !r.riskApproved {
        return Raised;
      }
      var passes := EnforcePolicy(r);
      if !passes {
        return Raised;
      }
      hide PolicyPasses, ApprovalsAfter, Clean;
      var claimed := false;
      if Present(r.intent.clientOrderId) {
        claimed := store.ClaimClientOrderId(r.intent.clientOrderId.value);
        if !claimed {
          assert store.clientOrderIds == old(store.clientOrderIds);
          assert r.intent.clientOrderId.value in ClaimOf(r.intent) * old(store.clientOrderIds);
          var existing := store.FindOrder(ByClient(r.intent.clientOrderId.value));
          return if existing.Some? then Returned(existing.value) else Raised;
        }
      }
      assert ClaimOf(r.intent) * old(store.clientOrderIds) == {};
      if r.rejectedAtExecution {
        if claimed {
          store.ReleaseClientOrderId(r.intent.clientOrderId.value);
          assert store.clientOrderIds == old(store.clientOrderIds);
        }
        return Raised;
      }
      assert store.clientOrderIds == old(store.clientOrderIds) + ClaimOf(r.intent);
      calls := calls + [Call(r.intent, r.automated, r.actor, if NeedsApproval(cfg) then r.approval else None,
                             r.riskApproved, r.rejectedAtExecution, store.reconciliationReady, Clean(store.orders),
                             Waiting)];
      result := HandedOver;
    }

    /** A submit from the broker's answer on; `i` is the call that was answered. */
    method SubmitResume(ghost i: nat, intent: OrderIntent, answer: Answer) returns (result: ResumeResult)
      requires Valid() && i < |calls| && calls[i].outcome.Waiting? && calls[i].intent == intent
      modifies this`calls, store
      ensures Valid() && View() == SubmitAnswerStep(cfg, old(View()), i, answer)
      ensures ResumesWith(result, RecordOf(intent, answer), old(store.fills), answer.Success?)
    {
      ghost var before := View();
      hide RecordFill, Upsert, Advances, NextFill, InvalidIncrement;
      calls := calls[i := calls[i].(outcome := OutcomeOf(answer))];
      result := Raises;
      match answer {
        case Success(order) =>
          UpsertMembers(store.orders, order, store.maxOrders);
          store.UpsertOrder(order);
          var outcome := store.RecordOrderFill(order, "submission");
          result := if outcome.Invalid? then Raises else Returns(order);
        case Unknown(id, message, now) =>
          var order := UnknownOrder(intent, id, message, now);
          UpsertMembers(store.orders, order, store.maxOrders);
          store.UpsertOrder(order);
          store.SetReconciliationReady(false);
          result := Returns(order);
        case DefiniteFailure =>
          if Present(intent.clientOrderId) {
            store.ReleaseClientOrderId(intent.clientOrderId.value);
          }
        case OtherException =>
      }
      assert View() == SubmitAnswerStep(cfg, before, i, answer);
    }

    /** A cancel up to the broker call. */
    method CancelUntilCall(key: Lookup) returns (target: Option<OrderRecord>)
      requires Valid()
      modifies this`cancels
      ensures Valid() && View() == CancelStep(cfg, old(View()), key)
      ensures target.Some? ==> cancels == old(cancels) + [CancelCall(target.value, true)]
      ensures target.None? ==> cancels == old(cancels)
    {
      var found := store.FindOrder(key);
      if found.None? || (!cfg.mode.PaperMode? && !Present(found.value.brokerOrderId)) {
        return None;
      }
      cancels := cancels + [CancelCall(found.value, true)];
      target := found;
    }

    /** A cancel from the broker's answer on. */
    method CancelResume(ghost i: nat, target: OrderRecord, answer: Answer) returns (result: ResumeResult)
      requires Valid() && i < |cancels| && cancels[i] == CancelCall(target, true)
      modifies this`cancels, store
      ensures Valid() && View() == CancelAnswerStep(cfg, old(View()), i, answer)
      ensures ResumesWith(result, CancelRecordOf(target, answer), old(store.fills), answer.Success?)
    {
      ghost var before := View();
      hide RecordFill, Upsert, Advances, NextFill, InvalidIncrement;
      cancels := cancels[i := CancelCall(target, false)];
      result := Raises;
      match answer {
        case Success(remote) =>
          var merged := CancelMerge(target, remote);
          UpsertMembers(store.orders, merged, store.maxOrders);
          store.UpsertOrder(merged);
          var outcome := store.RecordOrderFill(merged, "cancel");
          result := if outcome.Invalid? then Raises else Returns(merged);
        case Unknown(_, message, now) =>
          var order := UnknownCancel(target, message, now);
          UpsertMembers(store.orders, order, store.maxOrders);
          store.UpsertOrder(order);
          store.SetReconciliationReady(false);
          result := Returns(order);
        case _ =>
      }
      assert View() == CancelAnswerStep(cfg, before, i, answer);
    }

    /**
      A reconciliation pass after its snapshot arrived; a pass that raises leaves the flag to its
      caller, which clears it.
     */
    method ReconcileNow(remotes: seq<OrderRecord>) returns (report: Option<Reconcile.Report>)
      requires Valid()
      modifies store
      ensures Valid()
      ensures report.Some? ==> View() == Next(cfg, old(View()), ReconcilePass(remotes))
      ensures report.None? ==>
                exists n :: 0 < n <= |remotes|
                            && View() == Next(cfg, Next(cfg, old(View()), ReconcileBroken(remotes[..n])), ClearReady)
    {
      ghost var before := View();
      hide Reconcile.AbsorbAll, Reconcile.Pass, DistinctIds;
      report := Reconcile.RunLocked(store, remotes);
      if report.None? {
        store.SetReconciliationReady(false);
        ghost var lim := Reconcile.Limits(store.maxOrders, store.maxFills);
        ghost var start := Reconcile.Progress(before.orders, before.fills, 0, 0, 0);
        ghost var n :| 0 < n <= |remotes|
                       && var part := Reconcile.AbsorbAll(lim, start, remotes[..n]);
                       store.orders == part.orders && store.fills == part.fills;
        assert View() == Next(cfg, Next(cfg, before, ReconcileBroken(remotes[..n])), ClearReady);
      } else {
        assert View() == Next(cfg, before, ReconcilePass(remotes));
      }
    }
  }
}
