# A verified model of the zksato trading control plane

zksato is a trading control plane: it submits orders through a risk and approval policy to a paper
or live broker, keeps the local order table, the fill ledger and the account in step with what the
broker reports, plans and watches a ladder of virtual price triggers, and delivers notifications
through a durable outbox. This project models the parts of it where several pieces of state have to
agree and proves, for every input and every run, that they do.

`dafny verify dfyconfig.toml` checks everything. Each module follows one component:

| module | component | what is proved |
|---|---|---|
| `Arithmetic`, `Domain`, `Store` | shared facts, records, state store | order table, client-id claims, fill recording as changes of state |
| `FillLedger` | incremental fill ledger | recorded quantity and value against all snapshots ever seen |
| `Portfolio` | paper account | conservation of money, valuation, save and restore |
| `PaperBroker` | paper broker | orders, ledger and holdings agree after every run, restarts included; a repeated quote is idle |
| `PaperOutcomes` | paper broker | in numbers: which price, when and how much an order trades; a round trip never gains |
| `SessionReconcile` | end-of-session comparison | an if-and-only-if for `matched`; every paper run matches |
| `Reconcile` | broker reconciliation | merging, marking and the readiness flag; what a pass settles |
| `ReconcileFixedPoint` | broker reconciliation | exactly when reconciling twice is a fixed point, also when the table overflows |
| `Approvals` | one-time live approvals | the compare-and-set form refines the locked form; no double grant |
| `Submission` | submit, cancel, policy | claims, readiness gate and approvals under every interleaving |
| `VideoEaPlanner` | ladder planner | caps, tick spacing, sides |
| `VideoEaLadder` | ladder planner | the ladder is complete: exactly which triggers a plan has, at which nearest ticks |
| `VideoEaRuntime` | trigger cycle | the incremental detector refines a whole-history test; snapshots round-trip |
| `VideoEaEmission` | trigger cycle | no double emission; exactly which snapshots are safe to restore |
| `VideoEaResearch` | research summaries | whipsaw counts and heat map against the runtime |
| `Outbox` | notification delivery | no starvation, bounded attempts, delivery is final |
| `Drawdown`, `Backtest` | backtester | accounting identity, one-pass drawdown is the pairwise maximum |
| `RiskMetrics` | VaR and expected shortfall | shortfall dominates VaR, order of returns is irrelevant |
| `RateLimit` | sliding-window limiter | pruned queue equals counting over the whole history |
| `LeaseLock` | distributed lock | mutual exclusion within the lease, safe release |

How state and concurrency are modelled. A component that changes fields in place is a class; every
method is tied to a function on values (`View() == Step(old(View()), ...)`), and the theorems are
about runs of those functions, so they apply to every sequence of method calls. Everything between
two `await`s is one step. Broker answers, risk verdicts, strategies, clocks and delivery outcomes
are inputs over which the theorems quantify. Numbers are exact reals, the fingerprint is an
injective constructor, and de-duplication keys are structured values in place of formatted text.

The functions that give an operation's value are themselves held to statements over the plain fields of
their inputs: the members ending in `InNumbers`, `InWords`, `Outcome`, `Is` and `Iff` say what a price,
quantity, status or count must be without naming the function that computes it.

Four promises are false as stated without a side condition. For each there is a failing input and a
condition that a caller can check beforehand:

- The ledger keeps the highest quantity only while no two local orders share a broker order id:
  `FillLedger.SharedReferenceLosesFill` loses a fill, `FillLedger.SharedReferenceRecordsTwice` records
  one twice, and `FillLedger.RecordingTakesEffectIff` says when a recording takes effect.
- The heat map of a PA-filtered plan differs from the runtime exactly for a LONG plan with a zone, a
  close below half a tick, a grid step of one tick and one tick within the price band:
  `VideoEaResearch.PlannerHeatmapAgreesIff`, with `VideoEaResearch.HeatmapCanDisagree` as the input.
- Restoring a snapshot can emit a trigger twice: `VideoEaEmission.StaleSnapshotRepeats` is the run, and
  `VideoEaEmission.RestoreIsSafeIff` shows that a snapshot is safe exactly when it lists every key
  emitted since arming.
- A second reconciliation pass over the same snapshot is idle exactly when every listed order is settled
  in the table and ledger that the first pass left: `ReconcileFixedPoint.SecondPassIsIdleIff`. A first
  pass that archives no listed order settles them all (`ReconcileFixedPoint.SecondPassIsIdle`); a
  listed order missing from the table is inserted again (`ReconcileFixedPoint.ArchivedIsInsertedAgain`),
  which always happens for a snapshot with more orders than the table holds
  (`ReconcileFixedPoint.SnapshotBeyondTableNeverSettles`).

## Model

| member | source | states |
|---|---|---|
| Store.StateStore.UpsertOrder | src/zksato/store.py:91-103 | The table becomes the one with the first order of that id replaced, or the order appended and the oldest beyond the limit archived |
| Store.UpsertMembers | src/zksato/store.py:91-103 | Ids stay distinct; the new table holds the upserted order, beside it only old orders with other ids, and not its old version |
| Store.UpsertPlaces | src/zksato/store.py:91-103 | An order with a known id is replaced where it stands; a new one goes to the end and the oldest beyond the limit are archived |
| Store.StateStore.FindOrder | src/zksato/store.py:113-136 | Returns the first order that matches by local id, broker id, either of the two in one scan, or client id, and nothing exactly when none does |
| Store.StateStore.UpdateQuote | src/zksato/store.py:57-65 | The stored quote survives only if it is strictly newer, and then the price history is unchanged; otherwise a history that holds the newest accepted prices goes on holding them, the last price included; no other symbol changes |
| Store.StateStore.AddFill | src/zksato/store.py:147-157 | A fill whose key is present changes nothing and returns the earlier fill; otherwise it is appended to the bounded ledger |
| Store.PushKeepsNewest | src/zksato/store.py:32-40 | The bounded ledger holds the newest entries, as many as it may |
| Store.SameRefIff | src/zksato/store.py:194-197 | Two snapshots share a key reference iff they share a broker id, or have none and are the same local order |
| Store.StateStore.RecordOrderFill | src/zksato/store.py:173-205 | The looped sums give exactly the increment between ledger and snapshot; it is recorded iff it reaches further at a valid price, and refused as invalid iff it reaches further without one, which takes a negative average price |
| Store.StateStore.ClaimClientOrderId | src/zksato/store.py:273-278 | Succeeds iff the id was unclaimed, and then claims it |
| Store.StateStore.ReleaseClientOrderId | src/zksato/store.py:280-282 | Removes exactly that claim |
| FillLedger.AdvancesIff | src/zksato/store.py:173-205 | In a ledger of valid fills, a snapshot is recorded iff it is positively priced and its quantity exceeds what is recorded |
| FillLedger.RecordedIsHighestSeen | src/zksato/store.py:147-205 | For any sequence of snapshots of any orders from any sources, repeated, delayed or going backwards, the recorded quantity is the highest priced cumulative quantity seen |
| FillLedger.RecordedValueIsExact | src/zksato/store.py:147-205 | If cumulative value grows with quantity, the recorded value is average price times quantity of the snapshot that first reached the maximum |
| FillLedger.AppendedValueExactIff | src/zksato/store.py:184-205 | One recording makes the ledger's value exact iff the cumulative value exceeds what was recorded |
| FillLedger.RecordingTakesEffectIff | src/zksato/store.py:147-205 | An advancing snapshot takes effect iff its key is not in the ledger yet |
| FillLedger.SharedReferenceLosesFill | src/zksato/store.py:147-205 | Two local orders with one broker order id, one source: the second order's equal fill is lost |
| FillLedger.SharedReferenceRecordsTwice | src/zksato/store.py:147-205 | Two local orders with one broker order id, two sources: the same fill is recorded twice in full |
| Portfolio.PaperPortfolio.constructor | src/zksato/portfolio.py:25-55 | A stored account is restored with defaults for unusable numbers and negative holdings clamped to zero; otherwise the account opens with the initial cash and is saved |
| Portfolio.PaperPortfolio.Persist | src/zksato/portfolio.py:57-68 | What is saved is the account as it stands |
| Portfolio.RestoreIsExactIff | src/zksato/portfolio.py:35-68 | Restoring the saved holdings gives them back iff none is negative |
| Portfolio.RestoredInNumbers | src/zksato/portfolio.py:35-55 | Negative stored numbers come back as zero, all others as they are |
| Portfolio.StoredInNumbers | src/zksato/portfolio.py:15-45 | Stored numbers are read back as they are; unusable ones give way to the initial cash and no profit |
| Portfolio.PaperPortfolio.ApplyFill | src/zksato/portfolio.py:73-96 | Refuses exactly the purchase beyond cash and the sale beyond the position, keeps the account sound, saves an accepted fill and nothing else |
| Portfolio.ApplyFillSound | src/zksato/portfolio.py:73-96 | One fill, accepted or refused, keeps cash plus cost of holdings equal to initial cash plus realized profit, and everything non-negative |
| Portfolio.PurchaseInNumbers | src/zksato/portfolio.py:73-96 | A purchase within cash adds its quantity, spreads old cost and notional over the new average, costs its notional and realizes nothing |
| Portfolio.SaleInNumbers | src/zksato/portfolio.py:73-96 | A sale within the position keeps the average until nothing is left, brings its notional and realizes price over average times quantity |
| Portfolio.RefusalInNumbers | src/zksato/portfolio.py:73-96 | A purchase beyond cash or a sale beyond the position moves nothing |
| Portfolio.ConservationOnEveryRun | src/zksato/portfolio.py:73-96 | The same after every sequence of fills from a fresh account |
| Portfolio.PositionTotals | src/zksato/portfolio.py:98-122 | The loop's market value is the sum over held symbols, market value less unrealized profit is the sum of costs, and each held symbol is listed once |
| Portfolio.ValuedAtLast | src/zksato/portfolio.py:98-110 | A symbol is valued at its last price, without a quote at its average |
| Portfolio.PaperPortfolio.Snapshot | src/zksato/portfolio.py:98-138 | Equity equals initial cash plus realized plus unrealized profit, equals cash plus market value; the account is unchanged; the peak is the maximum so far and a new one is saved |
| PaperBroker.IncrementIsTheFill | src/zksato/broker/paper.py:171-216 | The increment that the ledger derives from the updated cumulative average is the executed fill itself, same quantity and same price |
| PaperBroker.FillAgrees | src/zksato/broker/paper.py:171-216 | One fill keeps orders, ledger and holdings in agreement |
| PaperBroker.FillPricePositive | src/zksato/broker/paper.py:218-233 | For valid quotes fill prices are positive, and a limit fill is never worse than its limit |
| PaperBroker.PlaceKeepsInv | src/zksato/broker/paper.py:57-79 | A placement, filled, resting or refused, keeps the agreement |
| PaperBroker.TouchKeepsInv | src/zksato/broker/paper.py:81-135 | A quote against one resting order, filling it or cancelling it, keeps the agreement |
| PaperBroker.CancelKeepsInv | src/zksato/broker/paper.py:235-257 | A cancellation keeps the agreement |
| PaperBroker.Broker.ApplyFill | src/zksato/broker/paper.py:171-216 | Fills iff the account can afford it; account, order record, ledger and claimed client ids move together |
| PaperBroker.Broker.FillNewOrder | src/zksato/broker/paper.py:57-79 | An immediately executable new order is filled in full iff the account can afford it |
| PaperBroker.Broker.PlaceOrder | src/zksato/broker/paper.py:57-79 | Refuses exactly a repeated client id, a market order without a quote and an unaffordable fill; the new state is the specified one and keeps the invariant |
| PaperOutcomes.MarketOrderOutcome | src/zksato/broker/paper.py:57-79 | A market order trades its whole quantity at offer-or-last (BUY) or bid-or-last if the account allows; otherwise, without a quote or under a claimed client id, nothing trades or is stored |
| PaperOutcomes.LimitOrderOutcome | src/zksato/broker/paper.py:57-79 | A limit order trades at once iff that price is within its limit, at that price with improvement and at the limit without; otherwise it rests as it came |
| PaperOutcomes.RoundTripNeverGains | src/zksato/broker/paper.py:218-233 | With bid at most offer, buying and selling back at one quote costs exactly the spread and never raises cash |
| PaperOutcomes.OneOrderPerClientId | src/zksato/broker/paper.py:57-59 | Once a placement stored an order, every later one under its client id has no effect, whatever happens short of a restart |
| PaperBroker.Broker.ProcessQuote | src/zksato/broker/paper.py:81-135 | The loop over the listed orders, newest first, has the effect of touching each of them in turn, keeps the invariant and returns exactly the orders whose record changed, in that order |
| PaperBroker.Broker.TouchOrder | src/zksato/broker/paper.py:90-135 | One listed order is filled up to the per-quote limit, or cancelled when the account refuses, and its new record returned |
| PaperOutcomes.QuoteOutcome | src/zksato/broker/paper.py:81-135 | A quote trades a live limit order iff its price is within the limit, for what is left up to the per-quote limit; an unaffordable one is cancelled as it is |
| PaperBroker.Broker.CancelOrder | src/zksato/broker/paper.py:235-257 | Cancels iff an open order with that id is retained |
| PaperOutcomes.CancelOutcome | src/zksato/broker/paper.py:235-257 | A cancel never trades; it ends exactly an accepted, pending or partly filled order and leaves every other record |
| PaperBroker.Broker.UpdateQuote | src/zksato/store.py:57-65 | A quote is a step of the session: the newer of the two is stored and the invariant kept |
| PaperBroker.Broker.PortfolioSnapshot | src/zksato/broker/paper.py:262-263 | Valuing the account is the saving step of the session when equity is a new high, and no step otherwise |
| PaperBroker.TouchedDiffers | src/zksato/broker/paper.py:88-135 | A quote changes a record exactly when it reaches the order, and no other record |
| PaperBroker.Broker.AcceptOrder | src/zksato/broker/paper.py:137-169 | A resting order is stored under a new id and its client id claimed |
| PaperBroker.Broker.Restart | src/zksato/broker/paper.py:24-55 | A new broker over the same store continues from the saved account and the client ids of the retained orders |
| PaperBroker.RestartKeepsInv | src/zksato/broker/paper.py:24-55 | A restart between completed operations keeps orders, ledger and holdings in agreement |
| PaperBroker.RestartKeepsAccount | src/zksato/portfolio.py:35-68 | After a restart, cash, realized profit and every holding are as before |
| PaperOutcomes.RestartInWords | src/zksato/broker/paper.py:49-55 | A restart keeps table, ledger and quotes and claims exactly the client ids of the retained orders |
| PaperOutcomes.QuoteStoredIff | src/zksato/store.py:57-65 | A quote replaces the stored one of its symbol unless that one is newer, and touches nothing else |
| PaperBroker.StillReachedIff | src/zksato/broker/paper.py:88-135 | After a quote, the same quote would reach an order again iff the per-quote limit filled it only in part |
| PaperBroker.QuoteAgainIsIdle | src/zksato/broker/paper.py:81-135 | Without a per-quote limit, one pass leaves no retained order that the quote reaches, and the same quote again changes nothing |
| PaperBroker.EveryRunAgrees | src/zksato/broker/paper.py:57-257 | After every run of placements, quotes, cancels, saves and restarts without eviction, each order's filled quantity and value are the sums of its fills, fills never exceed the order, signed ledger sums are the holdings, money is conserved |
| PaperBroker.ReportingAgainIsIdle | src/zksato/service.py:324-324 | Recording a paper order again under another source never adds a fill |
| SessionReconcile.ExpectedPositions | src/zksato/session_reconcile.py:36-43 | The accumulated dictionary holds the signed ledger sum of every symbol |
| SessionReconcile.Compare | src/zksato/session_reconcile.py:36-73 | `matched` iff every symbol's signed fills and position agree up to the tolerance and no retained order is unresolved; the discrepancies are exactly the disagreeing symbols |
| SessionReconcile.DifferIff | src/zksato/session_reconcile.py:41-61 | Two quantities disagree iff they differ and one exceeds 1e-9 in size |
| SessionReconcile.RecentIs | src/zksato/session_reconcile.py:38-38 | The newest hundred thousand fills are compared |
| SessionReconcile.AgreementMatches | src/zksato/session_reconcile.py:36-73 | A paper session in agreement matches its own positions |
| SessionReconcile.EveryRunMatches | src/zksato/session_reconcile.py:36-73 | Every paper run without eviction is reported as matched |
| SessionReconcile.RunSession | src/zksato/session_reconcile.py:36-73 | The same for the broker and account objects: the report is a match and nothing but the remembered peak and the saved account changes |
| Reconcile.MatchOrder | src/zksato/reconcile.py:132-139 | The local order by broker id first, then by client id; nothing iff no retained order carries either |
| Reconcile.MergeKeepsTerms | src/zksato/reconcile.py:60-75 | Merging keeps id, symbol, side, quantity, type, price and creation time, takes status and fills from the broker, and is idempotent |
| Reconcile.AbsorbRemote | src/zksato/reconcile.py:45-90 | One remote order moves table, ledger and counters as specified; the pass stops only at a negative average price |
| Reconcile.AbsorbRemotes | src/zksato/reconcile.py:45-90 | The loop absorbs the list in order, or the prefix that ends with a refused fill |
| Reconcile.MarkMissing | src/zksato/reconcile.py:92-109 | Exactly the pending, accepted, partly filled or unresolved orders whose broker id is not listed become unresolved, counted and listed newest first; all others and the ids stay |
| Reconcile.MissingIdsMembers | src/zksato/reconcile.py:92-109 | An id is reported as unresolved iff an open retained order with it is not listed |
| Reconcile.NoneLiveUnlisted | src/zksato/reconcile.py:92-103 | After marking, an unlisted order is filled, cancelled, rejected or unresolved |
| Reconcile.CountedIff | src/zksato/reconcile.py:45-90 | A remote order counts as inserted iff no retained order carries its broker id, and as updated iff one does and the table changed |
| Reconcile.RunLocked | src/zksato/reconcile.py:40-125 | A completed pass has the specified table, ledger and report, with the ids of the marked orders, and sets ready iff no retained order needs reconciliation; then every retained order that the broker does not list is filled, cancelled, rejected or unresolved, and ready means that every live order with a broker id is listed; a broken one leaves the flag alone; ids stay distinct either way |
| Reconcile.RecordingSettlesIff | src/zksato/reconcile.py:127-130 | After recording, the snapshot no longer advances the ledger iff its key was not taken |
| Reconcile.AbsorbSettlesIff | src/zksato/reconcile.py:45-90 | An absorbed order would be left alone by the next pass iff its ledger key was not taken by another order |
| Reconcile.AbsorbAllSettles | src/zksato/reconcile.py:45-90 | Absorbing a snapshot settles every order of it and unsettles none with another broker id |
| ReconcileFixedPoint.Simulates | src/zksato/reconcile.py:45-90 | The pass over the bounded table is the end of one over a table large enough: same ledger and counters, and what it lacks is unlisted |
| ReconcileFixedPoint.SecondPassIsIdleIff | src/zksato/reconcile.py:40-125 | For any table, ledger and limits, the second pass over the same snapshot inserts, updates and records nothing and leaves table and ledger unchanged iff every listed order is settled after the first |
| ReconcileFixedPoint.NothingCountedInAllIff | src/zksato/reconcile.py:45-90 | A pass moves no counter of its report iff everything listed was settled before it |
| ReconcileFixedPoint.PassSettles | src/zksato/reconcile.py:45-90 | A pass that archives no listed order settles everything listed |
| ReconcileFixedPoint.SecondPassIsIdle | src/zksato/reconcile.py:40-125 | So the second pass is idle whenever the first archived no listed order, even if it archived others |
| ReconcileFixedPoint.SecondPassIsIdleOnRecordedLedger | src/zksato/reconcile.py:40-125 | The same on every ledger that was recorded from any snapshots of any sources, while references of different orders differ |
| ReconcileFixedPoint.ArchivedIsInsertedAgain | src/zksato/reconcile.py:45-59 | The second pass inserts again iff some listed order is not in the table that the first one left |
| ReconcileFixedPoint.SnapshotBeyondTableNeverSettles | src/zksato/store.py:91-103 | A snapshot with more orders than the table holds is inserted from again by every second pass |
| Approvals.GrantedConsume | src/zksato/approvals.py:194-213 | A granted approval was unconsumed, now vouches for exactly this intent and actor, unexpired and by a distinct actor where required, and cannot be granted again |
| Approvals.GrantedIff | src/zksato/approvals.py:194-213 | Granted iff the approval exists, is unconsumed, unexpired, for exactly this intent and from somebody else where required; a refusal changes nothing |
| Approvals.NoDoubleGrant | src/zksato/approvals.py:166-191 | Under every interleaving of inserts, reads and conditional updates no approval is granted twice and each grant is backed by its stamp |
| Approvals.TableProgress | src/zksato/approvals.py:166-191 | A new row is stored, a valid read opens, and an update is granted iff the row is still unconsumed |
| Approvals.UpdateRefinesConsume | src/zksato/approvals.py:166-191 | The conditional update does to the rows what consuming under the lock does, and is granted iff that is |
| Approvals.ApprovalRepository.Create | src/zksato/approvals.py:83-113 | Adds one unconsumed approval under a new id with its expiry |
| Approvals.ApprovalRepository.Consume | src/zksato/approvals.py:142-165 | Validates in order and stamps iff nothing is refused |
| Submission.HandedOverIff | src/zksato/service.py:189-275 | An order is handed over iff risk approved it, the mode allows it (broker, readiness, live switch, not automated, covering approval), its client id is free and execution did not reject it; then one call with its terms and its claim are added and nothing else moves |
| Submission.ApprovalSpentIff | src/zksato/service.py:359-395 | A live approval is spent iff risk and mode let the submit pass |
| Submission.EveryCallWasCleared | src/zksato/service.py:197-275 | In every run each call was risk-approved and not rejected at execution, with a broker and readiness outside paper mode and live trading enabled and no automation in live mode |
| Submission.AnswerOutcome | src/zksato/service.py:274-324 | What each of the four answers does to orders, claims, readiness and the call, with the unresolved record spelled out |
| Submission.CancelAnswerOutcome | src/zksato/service.py:410-470 | The merged record spelled out; an unknown cancel marks the order and clears ready; a failed one does nothing |
| Submission.CancelGoesOutIff | src/zksato/service.py:397-411 | A cancel goes out for the first order with that local or broker id iff, outside paper mode, it has a broker id |
| Submission.OtherStepsInWords | src/zksato/reconcile.py:110-125 | What creating an approval, a pass, a broken pass and clearing the flag leave |
| Submission.ClaimsExactInEveryRun | src/zksato/service.py:214-311 | Claims are held exactly for the client ids of calls that have not definitely failed, one call each |
| Submission.OneLiveCallPerClientId | src/zksato/service.py:214-311 | Under every interleaving, of two calls with one client id at least one has definitely failed |
| Submission.ReleasedOnlyByItsCall | src/zksato/service.py:307-311 | A claim disappears only when the call that holds it learns of its definite failure |
| Submission.NeverHandedOverUnresolved | src/zksato/service.py:374-375 | With reconciliation enabled, whenever an order is handed to a non-paper broker no retained order needs reconciliation |
| Submission.StepKeepsGate | src/zksato/service.py:274-306 | Every step keeps ready implying none unresolved, since ambiguous submits and cancels clear it in the same step |
| Submission.GateKeptIff | src/zksato/service.py:313-324 | A successful answer keeps readiness truthful iff its record does not itself need reconciliation |
| Submission.EveryLiveCallIsApproved | src/zksato/service.py:359-395 | With confirmation required, every call of every run carries its own approval, consumed unexpired for exactly its intent by its actor, not the creator where distinctness is required; none is automated |
| Submission.BackedInEveryRun | src/zksato/service.py:359-395 | The underlying invariant: all calls backed, no approval shared |
| Submission.TradingService.EnforcePolicy | src/zksato/service.py:359-395 | Passes exactly when the policy does; an approval is consumed only by passing |
| Submission.TradingService.SubmitUntilCall | src/zksato/service.py:189-275 | Risk, policy, claim, execution-time checks and hand-over in that order; a duplicate returns the earlier order |
| Submission.TradingService.SubmitResume | src/zksato/service.py:275-336 | Success records order and fill; an ambiguous answer records an unresolved order and clears ready; a definite failure releases the claim; other exceptions release nothing; a success whose fill is invalid raises after the order was stored |
| Submission.TradingService.CancelUntilCall | src/zksato/service.py:403-411 | A cancel goes out iff the order is found and, outside paper mode, has a broker id |
| Submission.TradingService.CancelResume | src/zksato/service.py:411-488 | The broker's answer is merged under the local identity, or the order is marked unresolved and ready cleared; an invalid fill raises after the order was stored |
| Submission.TradingService.ReconcileNow | src/zksato/reconcile.py:166-171 | A pass is one step of the protocol; a broken pass ends with ready cleared; the service stays valid for the next submit or cancel |
| VideoEaPlanner.BuildTriggers | src/zksato/video_ea.py:283-311 | The nested loop builds the ladder of all in-band rungs |
| VideoEaPlanner.LadderShape | src/zksato/video_ea.py:283-311 | At most the allowed number of rungs, each the rung of its side and level, no key twice |
| VideoEaPlanner.PlanWithinCaps | src/zksato/video_ea.py:201-214 | For every request, planned quantity and trigger count stay within the caps and keys are distinct |
| VideoEaPlanner.TicksNear | src/zksato/video_ea.py:597-600 | Rounding moves a value by at most half a tick |
| VideoEaPlanner.TicksShift | src/zksato/video_ea.py:597-600 | Shifting by whole ticks shifts the rounding by exactly as many |
| VideoEaPlanner.RungOnGrid | src/zksato/video_ea.py:290-300 | A rung is the rounded anchor plus a whole number of grid steps, unless the one-tick floor holds it up |
| VideoEaPlanner.RungSpacing | src/zksato/video_ea.py:290-300 | Neighbouring rungs that the one-tick floor does not clamp are exactly one grid step apart |
| VideoEaPlanner.RungSide | src/zksato/video_ea.py:290-300 | BUY rungs lie strictly above the anchor; SELL rungs strictly below iff the anchor is above one tick |
| VideoEaPlanner.InvalidationSide | src/zksato/video_ea.py:535-551 | The invalidation price lies opposite to the bias; for LONG iff the anchor is above one tick |
| VideoEaPlanner.PlanAroundAnchor | src/zksato/video_ea.py:143-230 | The same for all triggers, and for the invalidation price with or without triggers, of every plan with its anchor above one tick |
| VideoEaLadder.TriggerIff | src/zksato/video_ea.py:201-214 | A side and level have their trigger iff the request is plannable, the side is used, the level is configured and under both caps, and its nearest-tick price is in band |
| VideoEaLadder.TriggerTerms | src/zksato/video_ea.py:283-311 | Every trigger carries its nearest tick, the configured quantity and its own key |
| VideoEaLadder.LevelFitsIff | src/zksato/video_ea.py:202-208 | A level fits iff the configured number and both caps allow it |
| VideoEaLadder.RoundIsNearest | src/zksato/video_ea.py:597-600 | Rounding gives the nearest multiple of the tick, halves up and at least one, and nothing else is nearest |
| VideoEaLadder.InvalidationIs | src/zksato/video_ea.py:535-551 | The invalidation price is the nearest tick a stop distance beyond zone and close; none without ladder, zone or direction |
| VideoEaLadder.PlanFields | src/zksato/video_ea.py:143-230 | What a plan copies from the request, whatever became of its ladder; the grid step is a nearest tick |
| VideoEaRuntime.Activate | src/zksato/video_ea.py:232-257 | Lists exactly the triggers that the move crosses, in plan order |
| VideoEaRuntime.CrossingIsIncremental | src/zksato/video_ea.py:232-257 | One more price crosses the history iff the history was crossed or the last move crosses |
| VideoEaRuntime.StepRefinesHistory | src/zksato/video_ea_runtime.py:104-153 | One detector step keeps the fired set equal to the whole-history test |
| VideoEaRuntime.EveryRunOk | src/zksato/video_ea_runtime.py:82-304 | Every run keeps fired, price history and emissions in step |
| VideoEaRuntime.FiredIffHistoryCrosses | src/zksato/video_ea_runtime.py:104-153 | In every run a BUY trigger at T has fired iff some accepted p_i < T and a later p_j >= T; SELL mirrored |
| VideoEaRuntime.SnapshotRoundTrip | src/zksato/video_ea_runtime.py:239-304 | Restoring the snapshot of a reachable cycle is accepted and gives that cycle back |
| VideoEaRuntime.RestoredWellFormed | src/zksato/video_ea_runtime.py:239-284 | Every accepted snapshot restores to a well-formed cycle |
| VideoEaRuntime.AcceptedIff | src/zksato/video_ea_runtime.py:239-284 | A snapshot is accepted iff it describes a well-formed cycle, lists no key twice, names its plan's symbol and is not executable |
| VideoEaRuntime.StatesInEveryRun | src/zksato/video_ea_runtime.py:82-228 | In every run, in profit means the last result reached the target, stopped that it reached the stop, otherwise it lies strictly between; invalidated means its price was seen, active that something fired |
| VideoEaRuntime.ArmInWords | src/zksato/video_ea_runtime.py:82-102 | When arming is refused, and the fresh cycle otherwise |
| VideoEaRuntime.PriceInWords | src/zksato/video_ea_runtime.py:104-153 | When a price is ignored, ends the cycle, or is remembered |
| VideoEaRuntime.BasketInWords | src/zksato/video_ea_runtime.py:155-180 | Closed cycles ignore a result; the target is looked at before the stop; between them only the result is remembered |
| VideoEaRuntime.PauseThenResume | src/zksato/video_ea_runtime.py:194-228 | An open cycle comes back armed with everything else as it was; closed ones stay |
| VideoEaEmission.EveryRunEmissionOk | src/zksato/video_ea_runtime.py:82-304 | In every run whose restores list what was emitted, emitted keys count as fired, none is emitted twice, and the emitted quantity is theirs |
| VideoEaEmission.EmittedAtMostOnce | src/zksato/video_ea_runtime.py:82-153 | Between one arming and the next, each key is emitted at most once and the emitted quantity is within the fired quantity and the plan's total |
| VideoEaEmission.EmittedIsFired | src/zksato/video_ea_runtime.py:286-304 | When restores are of the current snapshot, the emitted quantity is `fired_quantity` |
| VideoEaEmission.EmittedWithinCap | src/zksato/video_ea_runtime.py:82-153 | For planner-built plans the emitted quantity stays within `max_total_quantity` |
| VideoEaEmission.StaleSnapshotRepeats | src/zksato/video_ea_runtime.py:239-284 | Arm, cross a trigger, restore the snapshot taken at arming, cross it again: the trigger is emitted twice, for every armable plan |
| VideoEaEmission.RestoredEmissionDistinctIff | src/zksato/video_ea_runtime.py:104-153 | The next price after a restore repeats a key iff it is accepted and crosses an emitted trigger that the snapshot does not list |
| VideoEaEmission.RestoreIsSafeIff | src/zksato/video_ea_runtime.py:239-284 | After every run, restoring an open or paused snapshot lets no continuation of prices, basket results, pauses and resumptions emit a key twice iff the snapshot lists every key emitted since arming |
| VideoEaRuntime.VideoEaCycleRuntime.Arm | src/zksato/video_ea_runtime.py:82-102 | Refused for a bad price, an empty or executable plan, or an open cycle; otherwise the cycle starts afresh |
| VideoEaRuntime.VideoEaCycleRuntime.OnPrice | src/zksato/video_ea_runtime.py:104-153 | Raises, ignores, invalidates or fires; returns exactly the crossed triggers that had not fired |
| VideoEaRuntime.VideoEaCycleRuntime.OnBasketPnlR | src/zksato/video_ea_runtime.py:155-180 | Take-profit wins over stop; closed cycles ignore it |
| VideoEaRuntime.VideoEaCycleRuntime.Reset | src/zksato/video_ea_runtime.py:182-192 | Back to the idle cycle |
| VideoEaRuntime.VideoEaCycleRuntime.Pause | src/zksato/video_ea_runtime.py:194-210 | Pauses an open cycle and nothing else |
| VideoEaRuntime.VideoEaCycleRuntime.Resume | src/zksato/video_ea_runtime.py:212-228 | A paused cycle becomes armed |
| VideoEaRuntime.VideoEaCycleRuntime.Restore | src/zksato/video_ea_runtime.py:239-284 | Accepts exactly the consistent snapshots and takes them over |
| VideoEaRuntime.VideoEaCycleRuntime.TakeSnapshot | src/zksato/video_ea_runtime.py:286-304 | Describes the cycle, with the fired keys listed once and their quantity summed |
| VideoEaResearch.SimulateWhipsaw | src/zksato/video_ea_research.py:314-341 | Raises exactly without prices, with a non-positive one or an unarmable plan; crossings equal unique plus duplicates iff no key was emitted twice, which distinct keys guarantee |
| VideoEaResearch.KeyCount | src/zksato/video_ea_research.py:314-341 | A list has as many keys as entries iff its keys are distinct |
| VideoEaResearch.TallyStep | src/zksato/video_ea_research.py:322-332 | One price moves the counters, the key set and the maximum as the runtime's session does |
| VideoEaResearch.MaxExposureHeatmap | src/zksato/video_ea_research.py:344-379 | Raises exactly on an invalid value or price; otherwise one cell per price with the capped crossed quantity, notional and exposure, and the two maxima over the cells |
| VideoEaResearch.CellInNumbers | src/zksato/video_ea_research.py:344-379 | Notional is price times quantity, exposure that in percent of the portfolio |
| VideoEaResearch.HeatIsCapped | src/zksato/video_ea_research.py:344-379 | The quantity is the crossed one, cut off at the plan's total |
| VideoEaResearch.NeutralHeatmapAgrees | src/zksato/video_ea_research.py:726-733 | A plan without a direction agrees with the runtime at every positive price |
| VideoEaResearch.HeatmapAgreesIff | src/zksato/video_ea_research.py:726-733 | For a directional plan the closed form equals the runtime's one-shot quantity at every positive price iff no trigger beyond the anchor lies in the invalidated region |
| VideoEaResearch.PlannerHeatmapAgreesIff | src/zksato/video_ea_research.py:344-379 | A PA-filtered planner plan agrees at every positive price, invalidating ones included, iff it is not LONG with a zone, a close below half a tick, a step of one tick and one tick in band |
| VideoEaResearch.PlannerHeatmapAgrees | src/zksato/video_ea_research.py:344-379 | The same at one price, for every anchor of at least half a tick |
| VideoEaResearch.ObstructedDisagrees | src/zksato/video_ea_research.py:726-733 | For every such request the heat map shows exposure at one tick and the runtime takes none |
| VideoEaResearch.HeatmapCanDisagree | src/zksato/video_ea_research.py:344-379 | There is a valid PA-filtered request and a price where the two differ |
| VideoEaResearch.PlannerRestoreIsSafeIff | src/zksato/video_ea_runtime.py:239-284 | For a PA-filtered plan with its anchor above one tick, a snapshot is safe to restore iff it lists what was emitted |
| Outbox.RetryIsLater | src/zksato/outbox_delivery.py:46-77 | A retry is strictly later and within the maximal delay iff attempts are left; otherwise dead |
| Outbox.DelayDoubles | src/zksato/outbox_delivery.py:46-77 | The first delay is the base, each further one twice the one before up to the maximum, constant from the thirty-first attempt |
| Outbox.InvalidIff | src/zksato/outbox_delivery.py:46-77 | Which arguments are refused |
| Outbox.PendingOutbox | src/zksato/store.py:418-439 | The stable sort and cut give the first eligible messages in due order, up to the limit |
| Outbox.BatchInWords | src/zksato/store.py:413-439 | Batched messages are unsent, not dead and due, in order of due time and age; one left out stands behind a full batch |
| Outbox.StepsInWords | src/zksato/store.py:458-524 | What an enqueue, requeue, attempt, delivery, failure and flush start do to the entry and the dispatcher |
| Outbox.NoStarvation | src/zksato/notifications/__init__.py:87-141 | In every run a due message with k undelivered ones in front, overtaken by n requeues, has been tried or itself requeued once floor((k+n)/b)+1 flushes are over, whatever fails or arrives |
| Outbox.RequeueOvertakesIff | src/zksato/store.py:498-512 | A requeued message lands in front, and is counted as overtaking, iff it is older and requeued at the very due time |
| Outbox.AttemptsBounded | src/zksato/notifications/__init__.py:87-141 | At most `max_attempts` tries per enqueue or requeue, and none after delivery, in every run |
| Outbox.OutboxDispatcher.EnqueueOutbox | src/zksato/store.py:400-406 | Appends one fresh message |
| Outbox.OutboxDispatcher.RequeueOutbox | src/zksato/store.py:498-512 | Resets an undelivered message and makes it due now; refuses a delivered or unknown one |
| Outbox.OutboxDispatcher.StartFlush | src/zksato/notifications/__init__.py:87-92 | Fixes the batch of the flush |
| Outbox.OutboxDispatcher.StartAttempt | src/zksato/store.py:458-474 | Counts the attempt before the post is awaited |
| Outbox.OutboxDispatcher.FinishAttempt | src/zksato/notifications/__init__.py:97-141 | Marks the message sent, or schedules its retry or dead letter from the attempt count read |
| Outbox.OutboxDispatcher.FlushOnce | src/zksato/notifications/__init__.py:87-141 | An undisturbed flush tries each message of the batch once, changes no other, and returns the number delivered |
| Outbox.FlushedInWords | src/zksato/notifications/__init__.py:92-141 | A tried message is sent, or has one attempt more with a retry or a dead letter |
| Drawdown.MaxDrawdownPct | src/zksato/indicators.py:200-209 | The one-pass loop returns the largest fall below the running peak |
| Drawdown.OnePassIsPairwise | src/zksato/indicators.py:200-209 | On a non-negative curve that is the maximum over all earlier/later pairs and lies in [0, 100] |
| Drawdown.NegativeCurveDiffers | src/zksato/indicators.py:200-209 | A curve with a negative value where the two differ |
| Backtest.OnBar | src/zksato/backtest.py:58-102 | One bar buys, sells or holds as specified, with slippage and both fees |
| Backtest.PurchaseInNumbers | src/zksato/backtest.py:60-69 | The largest quantity up to the order size that the cash pays for with slippage and commission is bought, and exactly its cost leaves |
| Backtest.SaleInNumbers | src/zksato/backtest.py:80-101 | The whole position goes, exactly its proceeds after slippage and commission come in, and the closed profit is those less cost and entry fee |
| Backtest.OtherwiseNothing | src/zksato/backtest.py:58-102 | Every other signal leaves the book alone |
| Backtest.ReplayInWords | src/zksato/backtest.py:40-59 | The run opens with the initial cash and takes the bars one by one with the prices seen so far |
| Backtest.ReplayBalanced | src/zksato/backtest.py:58-102 | After every bar, cash is initial cash plus closed profits less open cost and entry fee, and not negative |
| Backtest.EquityIdentity | src/zksato/backtest.py:40-111 | For every strategy and series, equity is initial cash plus closed profits plus open mark-to-market less the open entry fee, and not negative |
| Backtest.ReplayLoop | src/zksato/backtest.py:51-103 | The loop ends in the specified book and the equity of every bar |
| Backtest.Run | src/zksato/backtest.py:40-111 | Final equity satisfies the identity; the reported drawdown is the pairwise maximum of the curve, within [0, 100] |
| RiskMetrics.ShortfallAtLeastVar | src/zksato/risk.py:219-257 | Expected shortfall is at least VaR, which is at least 0, for every list, level in [0, 1] and non-negative value |
| RiskMetrics.OrderIsIrrelevant | src/zksato/risk.py:219-257 | Both depend on the returns only as a multiset |
| RiskMetrics.VarMonotone | src/zksato/risk.py:219-242 | VaR never falls when the confidence level rises |
| RiskMetrics.AtWholeRank | src/zksato/risk.py:231-240 | At a whole rank the percentile is that order statistic |
| RiskMetrics.SplitsTheGap | src/zksato/risk.py:231-240 | Between two ranks it splits their gap in proportion |
| RiskMetrics.LossIs | src/zksato/risk.py:235-241 | A loss is what a return falls below zero, and zero otherwise |
| RiskMetrics.VarIs | src/zksato/risk.py:219-242 | For any ascending arrangement VaR is the value times the loss at that percentile of rank (1-c)(n-1) |
| RiskMetrics.VarAtTheEnds | src/zksato/risk.py:219-242 | At confidence 1 the worst loss, at 0 that of the best return |
| RiskMetrics.TailSizeIs | src/zksato/risk.py:254-254 | The tail holds as many returns as fit into (1-c)n, at least one |
| RiskMetrics.TailLossIs | src/zksato/risk.py:255-256 | The tail losses add up one by one, gains counting as zero |
| RiskMetrics.ShortfallIs | src/zksato/risk.py:244-257 | Shortfall times the tail size is the value times the sum of the worst losses |
| RiskMetrics.NothingWithoutReturns | src/zksato/risk.py:226-227 | Without returns both are zero |
| RiskMetrics.AverageTailLoss | src/zksato/risk.py:244-257 | The averaging over the tail gives the tail average |
| RateLimit.Prune | src/zksato/security.py:79-80 | What pruning leaves is exactly the part of the client's whole history within the window |
| RateLimit.RateLimiter.Dispatch | src/zksato/security.py:76-83 | A request is accepted iff fewer than `limit` of that client's requests were accepted in the preceding 60 seconds of the whole history |
| RateLimit.AcceptedIff | src/zksato/security.py:76-83 | Accepted iff fewer than the limit of the client's acceptances, counted over the whole history, are less than sixty seconds old |
| RateLimit.RunInWords | src/zksato/security.py:76-83 | A run takes the requests one by one by that rule |
| RateLimit.NoSixtySecondsOverLimit | src/zksato/security.py:76-83 | No sixty seconds of any run hold more acceptances of a client than the limit |
| RateLimit.NoWindowOverLimit | src/zksato/security.py:76-83 | On every chronological sequence no 60-second window holds more acceptances of a client than the limit |
| LeaseLock.MutualExclusionWithinLease | src/zksato/coordination.py:58-72 | In every run of any number of contenders two are inside only if one has outlived its lease |
| LeaseLock.ReleaseSparesOthers | src/zksato/coordination.py:11-16 | A release, by an expired holder or not, never removes the key of another process within its lease |
| LeaseLock.AcquiresIff | src/zksato/coordination.py:58-66 | A contender gets in iff there is no key or its lease is over, and then holds a full lease |
| LeaseLock.TimeMoves | src/zksato/coordination.py:58-72 | Time moves only by waiting, and waiting moves nothing else |
| LeaseLock.LeavingFreesTheLock | src/zksato/coordination.py:67-72 | A process that leaves within its lease frees the lock and the next contender gets in |
| LeaseLock.LockKey.SetIfAbsent | src/zksato/coordination.py:58-66 | Acquires iff no unexpired key is there, and is the acquiring step of the protocol |
| LeaseLock.LockKey.Release | src/zksato/coordination.py:11-16 | Deletes iff the unexpired key carries the caller's token, and is the leaving step of the protocol |

## Left out

- Rounding of floating-point numbers: all arithmetic is over exact reals, including the rounding of heat-map figures to ten decimals.
- Text forms of ids, keys, hashes and timestamps: identifiers are generated fresh, keys are structured, SHA-256 has no collisions.
- Aliasing of order records: a record is a value that is upserted. A cancel in flight keeps the record it started with, so changes that another task makes to the shared object meanwhile are not seen by it.
- Ledger eviction and order archiving: agreement theorems hold while the ledger has dropped nothing; claims about orders are about retained ones, and the session comparison looks back at most 100 000 fills.
- Order events, audit log, metrics, and reason texts.
- Price-action detection, candle trimming and the average true range: inputs of the planner, quantified over.
- The verdict of the risk engine, sector exposure and the execution-time checks: inputs of a submit, quantified over.
- Network adapters and feeds: the broker's answers are arbitrary. `Submission.NeverHandedOverUnresolved` assumes that broker records do not carry the local status NEEDS_RECONCILIATION, which `Submission.GateKeptIff` shows to be exactly what is needed.
- ReconcileFixedPoint.SecondPassIsIdleIff: for snapshots as the adapters produce them, with distinct present broker ids and no client ids. That a first pass settles everything (`ReconcileFixedPoint.PassSettles`) is shown where it archives no listed order, new ones come with unused local ids and ledger keys belong to their orders, which `Reconcile.AbsorbSettlesIff` shows to be needed; otherwise the condition is checked on the state that the first pass left.
- VideoEaRuntime.FiredIffHistoryCrosses: restores are of the cycle's current snapshot, since an older one also brings back an older last price.
- VideoEaEmission.RestoreIsSafeIff: for snapshots of the cycle's own plan, open or paused, whose triggers do not lie in the invalidated region; PA-filtered plans with an anchor above one tick qualify.
- Outbox.OutboxDispatcher.FlushOnce: one instant for the whole flush and nothing interleaved; the interleaved form is the step-by-step one of `StartFlush`, `StartAttempt` and `FinishAttempt`, which the run theorems are about.
- Backtest.Run: the trades list, win rate, exposure and ratios of the result.
- Portfolio.PaperPortfolio.constructor: an unreadable number inside a stored holding, which makes the source raise.
- Crashes in the middle of an operation (restarts come between completed operations, over a store that survives them), several outbox dispatchers, and several processes sharing one reconciliation flag.
- SQL persistence, apart from the conditional update of approvals; sub-accounts and futures checks.
- The Redis rate limiter, the local lock of a single process, and the waiting loop with its deadline around the lock.
- The replay summary, which counts like the whipsaw.
- Confidence levels outside [0, 1].
- Protective exits, alerts, strategy signals, audit chain, user interface and HTTP routing.
