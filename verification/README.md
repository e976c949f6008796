# The Midas execution core, modelled and proved in Dafny

Midas turns an authorized trading decision into broker orders. Its execution core
(`medis_touch/app`) does so by a write-ahead protocol: an order passes a risk gate, reserves
exposure, is journaled, is stored by an order manager, is sliced into children, and each child is
journaled before it is submitted; fills are recorded in the journal and in the order manager, the
children are reconciled against the broker, and only then is the reservation turned into committed
exposure. Any call to the broker may raise, and each of the many ways out has to leave the four
stores in a state from which nothing is submitted twice and no exposure is lost. This project
models that protocol and proves what it promises, together with the independent algorithms of the
tools around it.

## How the model is built

Every store is a class whose fields are maps, one entry per table row or dictionary entry
(`Journal`, `Admission`, `OrderManagement`, `Venue`, `Coordinator`). One transaction of the source is
one method. Each method is proved equal to a transaction function (`JournalSpec`, `AdmissionSpec`,
`OmsSpec`, `Venue`, `ExecutionSpec`, `ExecutionProtocol`), and the results are proved about those
functions over all runs (`JournalRuns`, `StateEvents`, `AdmissionRuns`, `ExecutionLoop`,
`ExecutionExits`, `ExecutionBatch`, `Interleaving`). Quantities are reals and the tolerances are the
source's own. What a transaction function computes is stated a second time without it, on rows, amounts,
prices and reports alone: when it is accepted, as an if-and-only-if, and every field afterwards
(`JournalLaws`, `OmsLaws`, `ExecutionLaws`, `LedgerLaws`, and the laws named `...Iff` and `...Writes` in the
modules of the other stores and algorithms).

The broker of `Coordinator` may raise or answer anything at every call. It remembers each call whole: the
order submitted, the venue id, the price asked for, and the answer. So the contract of `Execute` says exactly
what the call does with those answers, exactly what it says to the broker, and what it guarantees whatever
the answers are.

The main results:

- Submission is write-ahead and at most once, for one coordinator on every exit
  (`Coordinator.GovernedExecutionCoordinator.Execute`) and for any interleaving of any number of them
  sharing a journal, with crashes, retries and recovery jobs (`Interleaving`); and every loop of the
  coordinator is such a run (`WorkerSteps`).
- The conversation with the broker (`ExecutionConversation.CarriedConverses`): whatever it answers, the
  parts submitted are journaled as submitted and add up to the order, every fill is asked for at the quoted
  side and booked as given in four places, and the loop ends unreconciled exactly when the broker did not
  see some child filled.
- Reservation accounting on all nine exits of `execute` (`ExecutionExits.EveryExitAccounts`), and
  the batch admission of `execute_many` (`ExecutionBatch`).
- Exposure is never oversubscribed under any interleaving, and everything that fits is admitted
  (`AdmissionRuns`).
- The journal's aggregates agree with its deal ledger, its states with its quantities, and its
  identities are write-once, over every run of interleaved operations (`JournalRuns`). `recover_unknown`
  reads a row outside its transaction, so it is two steps of such a run.
- Against the simulated venue, exactly when and how a whole call of `execute` ends, and that order
  manager, journal parent, journal children and exposure then agree (`SimulatedExecution`); and inputs on
  which the calls that lose something do so (`FailingCalls`).
- The three-colour cycle search, the signal lifecycle against its price history, Holm's adjustment
  against a definition without ranks, the train/validation/locked-window partition, deal-ledger
  reconstruction with its one-pass metrics, and the recalibration gate.

## What the code does that one might not expect

Where the code and its documentation differ the model follows the code. These are theorems:

- A recovery to "nothing filled" without a deal list marks the ledger complete over whatever deals it
  holds. Agreement survives a recovery exactly when this does not happen
  (`JournalRuns.RecoveryAgreesIff`, `JournalRuns.ErasingRunDisagrees`).
- `recover_unknown` checks the quantity on a row it read before its transaction. An order begun with a
  quantity keeps within it over every run (`JournalRuns.InsertedOrderFits`); the journal as a whole does
  exactly as long as no recovery that read its order before the quantity was bound brings more than it
  (`JournalRuns.RunBoundedIff`, `JournalRuns.RacingRunOverfills`).
- The order manager's tolerance of 1e-12 accumulates over fills, and `record_fill` takes orders out of
  terminal statuses (`OmsSpec.DripOverfills`, `OmsSpec.TerminalKeptIff`).
- `freeze_for_reconciliation` stores RECOVERY_REQUIRED only for an UNKNOWN order
  (`OmsSpec.FreezeWritesIff`).
- A POV order of at most 1e-12, with no volume observed first, has an empty plan. `execute` then fails
  its durable check after the try block without having called the broker, and keeps the reservation
  (`SimulatedExecution.NothingToSendKeepsReservation`, `FailingCalls.EmptyPlanHappens`).
- If the last child is at most 1e-9, the parent's journal row closes before it and refuses its fill,
  after the broker has executed it (`SimulatedExecution.SimulatedExecutionIff`,
  `SimulatedExecution.RefusedFillWasExecuted`, `FailingCalls.TinyLastChildHappens`).
- The reservation is made at the reference price and the commit at the fill price, so a buy filled
  at an ask above the reference price makes the commit raise (`SimulatedRun.CommitIff`). The order is
  executed then, no journal row asks for recovery, and when the reservation expires 30 seconds later,
  or at once if the call is retried before that, its exposure is counted nowhere
  (`SimulatedExecution.RefusedCommitStrands`, `FailingCalls.RefusedCommitIsForgotten`,
  `FailingCalls.RetryForgetsAtOnce`, `FailingCalls.RefusedCommitHappens`).
- Cost analysis raises on a non-positive arrival price, exactly when everything before it has gone
  well and the commit has been made (`ExecutionProtocol.AnalyticsFailsIff`,
  `FailingCalls.AnalyticsFailureHappens`).
- A retry under a journaled order id whose reservation is still live fails, and releases that
  reservation (`FailingCalls.RetryReleases`).
- The handler between journaling and storing a parent is never needed
  (`ExecutionProtocol.OpeningFacts`), the conservation error of the slicer never fires
  (`Slicing.PlanFacts`), the `except ValueError` of the cycle search is unreachable
  (`CycleFinder.Search.CloseCycle`), and no signal becomes STALE (`SignalLifecycle.NeverStale`).

## Model

| member | source | states |
|---|---|---|
| `Coordinator.GovernedExecutionCoordinator.Execute` | medis_touch/app/execution_coordinator.py:125-275 | For any broker: the world, the exposure ledger, the result and the exit are the ones the protocol function gives for the broker's answers (Performed); the broker was asked exactly what the conversation says, with every argument (Conversed); and whatever it answers, the predicate Guaranteed holds: every submitted child was journaled first and submitted once, the exposure ledger is settled as the exit demands, a failure before the first broker call leaves nothing to recover and a later one something that blocks new exposure (unless the parent's row is FILLED by then), and a return or a post-commit failure means the whole order was executed up to the stated tolerances |
| `ExecutionConversation.CarriedConverses` | medis_touch/app/execution_coordinator.py:183-218 | The conversation, whatever the broker answers: each submitted child is a part of the order (its symbol, side and decision, a child identity, a positive quantity) on the quoted venue, and is journaled with that quantity and identity; the quantities add up to at most the order, and to all of it up to 1e-12 when the loop goes through; each fill is asked for under the venue id submit answered, a buy at the ask and anything else at the bid, and is booked exactly as given in the child's row, the child's ledger, the parent's ledger and the order manager; each reconcile asks for that same venue id; a loop that goes through ends Unreconciled exactly when some child was not seen FILLED with its own quantity up to 1e-9 |
| `ExecutionConversation.ChildSays` | medis_touch/app/execution_coordinator.py:184-218 | So for one turn: the at most three calls, in order, with their arguments, what the journal holds of their answers, and that the child counts as reconciled exactly when the broker sees it FILLED with its own quantity |
| `Coordinator.GovernedExecutionCoordinator.PassGates` | medis_touch/app/execution_coordinator.py:126-154 | Let in exactly when the hash agrees and every gate is open; nothing is written |
| `Coordinator.GovernedExecutionCoordinator.Reserve` | medis_touch/app/execution_coordinator.py:106-110 | Asks for quantity times reference price, in the portfolio and in the order's symbol; a refusal changes nothing |
| `ExecutionLaws.GateIff` | medis_touch/app/execution_coordinator.py:126-154 | Let in exactly under the approved hash or none, on a quote for its own symbol from an authorized and healthy venue, within every limit, with no journal row waiting for the broker and normal controls; which error otherwise; and the hashes it goes on under |
| `ExecutionLaws.EachReasonIff` | medis_touch/app/pretrade_risk.py:218-246 | Each reason to refuse is given exactly on its own condition |
| `ExecutionLaws.OpeningMeans` | medis_touch/app/execution_coordinator.py:158-172 | A stored parent is journaled as SUBMITTING with its quantity and client identity, stored as NEW, and its backend stream says so |
| `ExecutionLaws.PlanningMeans` | medis_touch/app/execution_coordinator.py:173-182 | A plan is made only for an order that can be scheduled, on an authorized venue the router accepts; the order is WORKING then, the backend stream has told VALIDATED, ROUTING and WORKING in turn, and the journal is untouched |
| `Coordinator.GovernedExecutionCoordinator.OpenParent` | medis_touch/app/execution_coordinator.py:158-172 | The journal row, the stored order and the first event of a new parent, or what is undone of them |
| `Coordinator.GovernedExecutionCoordinator.Advance` | medis_touch/app/execution_coordinator.py:173-174 | One OMS transition of the parent and its event |
| `Coordinator.GovernedExecutionCoordinator.Plan` | medis_touch/app/execution_coordinator.py:173-182 | VALIDATED, ROUTING and WORKING in this order, the router and venue checks and the plan between them |
| `Coordinator.GovernedExecutionCoordinator.RunChild` | medis_touch/app/execution_coordinator.py:184-218 | One turn of the child loop is the step function of the broker's answers; the broker is called for exactly the ids and in the order the step says |
| `Coordinator.GovernedExecutionCoordinator.Place` | medis_touch/app/execution_coordinator.py:191-199 | venue.submit of the child as it stands, recorded with its reply; then WORKING with the venue id, or UNKNOWN |
| `Coordinator.GovernedExecutionCoordinator.BookInJournal` | medis_touch/app/execution_coordinator.py:202-210 | The fill enters the child's ledger, then the parent's under a prefixed id; the first stays when the second raises |
| `Coordinator.GovernedExecutionCoordinator.SettleChild` | medis_touch/app/execution_coordinator.py:202-218 | Fill at the quoted side under the venue id, then journal, OMS, event, and reconciliation of the same id; every call recorded with its arguments |
| `Coordinator.GovernedExecutionCoordinator.RunChildren` | medis_touch/app/execution_coordinator.py:183-218 | The loop yields a trace in which every step is faithful, only the last may have raised, and broker_call_started says whether anything was submitted |
| `Coordinator.GovernedExecutionCoordinator.Attempt` | medis_touch/app/execution_coordinator.py:156-218 | The try block: set-up, plan and loop, and how far it came |
| `Coordinator.GovernedExecutionCoordinator.CleanUp` | medis_touch/app/execution_coordinator.py:219-233 | The handler: before the first broker call the parent is cancelled and the reservation released; after it both stay |
| `ExecutionLaws.CleanedUpWrites` | medis_touch/app/execution_coordinator.py:219-233 | What the handler changes, field by field: the order only if it is UNKNOWN, the row only if nothing was submitted and it is SUBMITTING, the reservation only if nothing was submitted |
| `Coordinator.GovernedExecutionCoordinator.DurableMatch` | medis_touch/app/execution_coordinator.py:254-261 | True exactly when there are journal children, all FILLED, that add up to the OMS amount within tolerance |
| `Coordinator.GovernedExecutionCoordinator.Conclude` | medis_touch/app/execution_coordinator.py:234-275 | Unreconciled, durably mismatched, commit refused, analytics failed or returned, with the state each leaves |
| `ExecutionLaws.ConcludedIff` | medis_touch/app/execution_coordinator.py:234-275 | Which end it is, from flags, journal, order, reservation and quote alone: any unmatched child; else children that are missing, not all FILLED, or do not add up; else a cost beyond the reservation; else a quoted price that is not positive; else the report, with the order's own figures |
| `ExecutionLaws.ConcludedWrites` | medis_touch/app/execution_coordinator.py:234-266 | What each end leaves in the journal: an order in doubt UNKNOWN, one that went through RECOVERED if it was still SUBMITTING, nothing else touched |
| `Coordinator.GovernedExecutionCoordinator.AdmitOne` | medis_touch/app/execution_coordinator.py:81-95 | One order of a batch is let through exactly on an authorized, healthy quote and an admissible projection |
| `Coordinator.GovernedExecutionCoordinator.AdmitBatch` | medis_touch/app/execution_coordinator.py:66-95 | The first loop passes exactly when ids and keys are distinct, all is priced and every prefix is admissible |
| `ExecutionLaws.AdmittedIff` | medis_touch/app/execution_coordinator.py:66-95 | A batch is admissible exactly if every order has price and spread, no id and no non-empty key comes twice, and each order, on top of baseline and earlier orders, is within the limits |
| `ExecutionLaws.TermsAre` | medis_touch/app/execution_coordinator.py:90-103 | The terms of each order: the batch's price, spread and volumes of its symbol, and the baseline plus the sum of the earlier notionals, in all and in its symbol |
| `Coordinator.GovernedExecutionCoordinator.ExecuteNext` | medis_touch/app/execution_coordinator.py:97-103 | One execution of the second loop runs on the projected notionals |
| `Coordinator.GovernedExecutionCoordinator.ExecuteMany` | medis_touch/app/execution_coordinator.py:64-104 | Nothing is written unless the batch as a whole is admitted; otherwise the orders are executed in turn until one fails, the broker is asked for the batch's quotes and then for what each execution says, and no id is submitted twice in the batch |
| `ExecutionSpec.ChildStepFacts` | medis_touch/app/execution_coordinator.py:184-218 | One child, whatever the broker answers: only child and parent rows move, the broker is reached only for an id the journal has just gained, a raising broker call leaves an unresolved row, success leaves the fill in all three places |
| `ExecutionLoop.LoopSubmitsOnce` | medis_touch/app/execution_coordinator.py:184-199 | Along a whole loop every id that reached the broker was new to the journal, is in it afterwards under its identity, and reached it once |
| `ExecutionLoop.LoopSparesRows` | medis_touch/app/execution_coordinator.py:184-218 | No other row changes, whatever the broker does |
| `ExecutionLoop.LoopAddsOnlyChildren` | medis_touch/app/execution_coordinator.py:186-188 | No row but those of the children appears in the journal during a loop |
| `ExecutionLoop.LoopContainsOrders` | medis_touch/app/execution_coordinator.py:211-212 | No other order changes in the OMS, and of the parent only amounts, status and time stamp |
| `ExecutionLoop.LoopAccounts` | medis_touch/app/execution_coordinator.py:211 | After a loop that went through, the parent's amounts are the sums over the fills the broker gave, each fill id counted once |
| `ExecutionLoop.LoopJournals` | medis_touch/app/execution_coordinator.py:206 | Every child of such a loop is journaled with the amount the broker reported |
| `ExecutionLoop.LoopFailureBlocks` | medis_touch/app/execution_coordinator.py:194-197 | A raising broker call leaves a record that blocks new exposure |
| `ExecutionExits.EveryExitAccounts` | medis_touch/app/execution_coordinator.py:155-267 | Reservation accounting on every exit, for an id without a live reservation on entry: refusal changes nothing; failure before the first broker call leaves no reservation and no exposure; failure from then up to a refused commit leaves the reservation held and no exposure; afterwards the reservation is gone and exposure has grown, in scope and symbol, by exactly filled times average price |
| `FailingCalls.RetryReleases` | medis_touch/app/execution_coordinator.py:155-232 | The entry condition is needed: a retry under a journaled id whose reservation is live gets past gates and reservation, ends as a set-up failure without touching the stores, and takes the reservation away |
| `FailingCalls.RetryForgetsAtOnce` | medis_touch/app/execution_coordinator.py:155-232 | After a refused commit such a retry leaves the exposure ledger as if the executed order had never been placed |
| `ExecutionExits.TraceIsWriteAhead` | medis_touch/app/execution_coordinator.py:184-199 | The ids given to the broker are distinct, were not in the journal before and are in it afterwards, under parent and client identity |
| `ExecutionExits.ThroughIsExecuted` | medis_touch/app/execution_coordinator.py:253-266 | When the durable check passes, the amount executed is the order's, up to 1e-9 per child plus the check's own tolerance below and 1e-12 per child above |
| `ExecutionExits.DistinctFillsAddUp` | medis_touch/app/execution_coordinator.py:254-261 | Distinct children, each filled up to 1e-9, make up most of the journal's sum |
| `ExecutionProtocol.OpeningFacts` | medis_touch/app/execution_coordinator.py:159-172 | A new identity is stored fresh or nothing at all has changed, so the clean-up between journaling and storing is never needed |
| `ExecutionProtocol.PlanningFacts` | medis_touch/app/execution_coordinator.py:173-182 | The set-up leaves the journaled parent, the fresh order and a plan for it |
| `ExecutionProtocol.FailureIsCarried` | medis_touch/app/execution_coordinator.py:219-233 | Every failed attempt, cleaned up, is what the protocol function says and keeps all guarantees |
| `ExecutionProtocol.EndIsCarried` | medis_touch/app/execution_coordinator.py:234-275 | So does every attempt that reached the end of the loop |
| `ExecutionProtocol.AnalyticsFailsIff` | medis_touch/app/execution_coordinator.py:267-273 | Cost analysis raises exactly after all children matched, the durable check passed and the commit was made, on a non-positive arrival price; the raised call has then already turned the reservation into exposure of filled times average |
| `ExecutionBatch.EveryPrefixFits` | medis_touch/app/execution_coordinator.py:73-95 | If the first loop passes, baseline plus the notional of every prefix of the batch is within the portfolio limit, and within the symbol limit of each symbol it trades |
| `ExecutionBatch.SecondVerdictIsTheFirst` | medis_touch/app/execution_coordinator.py:97-103 | The second loop turns an order away at the gates only for its hash, its quote, an unresolved record or the control state, never for risk |
| `Identity.NewToTheJournalIsNewToTheOms` | medis_touch/app/execution_coordinator.py:160-165 | An order whose identity the journal takes as new is new to the OMS, by id and by idempotency key |
| `Identity.EvolvingKeepsLinked` | medis_touch/app/execution_coordinator.py:156-218 | Every order the OMS holds stays journaled under its client identity |
| `Interleaving.AtMostOnce` | medis_touch/app/execution_coordinator.py:184-199 | Over any interleaving of any number of coordinators sharing one journal, with crashes, retries and recovery jobs, no child id and no client identity crosses venue.submit twice |
| `Interleaving.WriteAheadAlways` | medis_touch/app/execution_coordinator.py:186-193 | Whenever such a run is about to submit, the child is journaled under the identity and for the quantity it is submitted with, and stays so for ever |
| `Interleaving.RunKeepsOk` | medis_touch/app/execution_coordinator.py:184-210 | The invariant behind both: armed workers hold distinct, recorded, never-submitted children |
| `WorkerSteps.TurnIsARun` | medis_touch/app/execution_coordinator.py:184-218 | Every turn of the coordinator's loop, whatever the broker answers, is a run of one worker of that protocol: same journal after it, same call of submit |
| `WorkerSteps.LoopIsARun` | medis_touch/app/execution_coordinator.py:183-218 | So is the whole loop, so that what holds of every interleaving of workers holds of interleaved coordinators |
| `SimulatedExecution.SimulatedExecutionIff` | medis_touch/app/execution_coordinator.py:125-275 | End to end with a venue that fills as the simulated one does, at the price it is asked for or at one of its own: a new, admitted order returns exactly when the last child (with what the plan left over) is the only one or more than 1e-9, the cost stays within the reservation and the quoted arrival price is positive; when only the third fails the call raises with everything done, when the second fails the commit is refused, when the first fails the loop stops; OMS parent, journal parent and journal children agree, are FILLED and leave nothing to recover whenever the first holds, and exposure grows by the cost exactly when the first two do |
| `SimulatedExecution.StaleQuoteStops` | medis_touch/app/venue.py:56-66 | If the market has moved past the quote, the venue refuses the first fill: the call fails in the loop with one child submitted, a row that asks for recovery, and the reservation kept |
| `SimulatedExecution.VenueAnswersEveryCall` | medis_touch/app/venue.py:35-92 | Such a run exists for every setting the theorem speaks of |
| `SimulatedExecution.RefusedCommitStrands` | medis_touch/app/execution_coordinator.py:253-267 | An unaffordable fill is executed, its commit refused, no journal row asks for recovery and the reservation stays |
| `FailingCalls.RefusedCommitIsForgotten` | medis_touch/app/pretrade_risk.py:153 | Once that reservation has expired the exposure ledger is what it would be without the executed order |
| `FailingCalls.RefusedCommitHappens` | medis_touch/app/execution_coordinator.py:125-275 | An input on which it happens: one lot bought at 11 against a reference price of 10, in empty stores; retried a second later, it empties the exposure ledger |
| `FailingCalls.AnalyticsFailureHappens` | medis_touch/app/execution_coordinator.py:267-273 | An input on which a call raises with its 10 already committed: one lot quoted at 0, by a broker that fills at 10 |
| `FailingCalls.TinyLastChildHappens` | medis_touch/app/execution_coordinator.py:202-210 | An input on which the loop stops over a fill the venue has made: two TWAP slices of 1e-9 |
| `FailingCalls.EmptyPlanHappens` | medis_touch/app/execution_coordinator.py:253-266 | An input on which nothing is submitted and the reservation stays: a POV order of 1e-12 with a first volume of 0 |
| `SimulatedExecution.RefusedFillWasExecuted` | medis_touch/app/execution_recovery.py:220-222 | Whenever a call stops in the loop against the venue, the venue has executed the last child, and the parent row closed by the one before refused its fill |
| `SimulatedExecution.NothingToSendKeepsReservation` | medis_touch/app/execution_coordinator.py:253-266 | A new, admitted order whose plan is empty fails the durable check: nothing is submitted, and the reservation stays |
| `SimulatedExecution.TraceEnds` | medis_touch/app/execution_coordinator.py:183-218 | The coordinator's loop on the venue's answers ends where the simulated loop ends |
| `SimulatedExecution.SetUpWorks` | medis_touch/app/execution_coordinator.py:156-182 | The set-up of a new order succeeds, with its four events |
| `SimulatedRun.SimulatedRunIff` | medis_touch/app/execution_coordinator.py:183-218 | The loop goes through exactly when no child but the last can close the parent's row; then parent, children and OMS agree |
| `SimulatedRun.StepIff` | medis_touch/app/execution_recovery.py:220-240 | One child goes through exactly when the parent's row has not closed early |
| `SimulatedRun.CommitIff` | medis_touch/app/pretrade_risk.py:180-204 | The commit succeeds exactly when executed quantity times price stays within quantity times reference price; a price above the reference makes it raise whenever the plan covers the order |
| `SimulatedRun.SlicedPlanIsOk` | medis_touch/app/child_execution.py:27-43 | Every plan of the slicer is one the venue can take, given liquidity and price |
| `SimulatedRun.OpenedIsReady` | medis_touch/app/execution_coordinator.py:156-182 | The set-up leaves a world the loop can start from |
| `Journal.ExecutionRecoveryJournal.BeginSubmission` | medis_touch/app/execution_recovery.py:97-159 | Inserts a SUBMITTING row, or binds what is still unbound in an existing one; a conflicting identity or quantity, a taken client id or a refused duplicate raises and changes nothing |
| `JournalLaws.BeginIff` | medis_touch/app/execution_recovery.py:97-159 | Exactly what is inserted, what is accepted again, and what is refused, on ids, bound values and amounts |
| `JournalLaws.BeginWrites` | medis_touch/app/execution_recovery.py:97-159 | Every field of the row afterwards: SUBMITTING and empty if new, otherwise only unbound values bound |
| `Journal.ExecutionRecoveryJournal.MarkFill` | medis_touch/app/execution_recovery.py:188-246 | Ledger and aggregate move together; a repeat of a recorded fill id changes nothing; a conflicting repeat, a closed order and an overfill raise and change nothing |
| `JournalLaws.MarkFillIff` | medis_touch/app/execution_recovery.py:188-230 | A fill is accepted exactly as a replay of the same deal up to 1e-12, or on a state open to fills within the requested quantity up to 1e-9; which error otherwise |
| `JournalLaws.MarkFillWrites` | medis_touch/app/execution_recovery.py:231-246 | Every field of row and ledger afterwards, and FILLED exactly from the requested quantity on, up to 1e-9 |
| `Journal.ExecutionRecoveryJournal.Update` | medis_touch/app/execution_recovery.py:448-484 | Moves along the table and binds a venue id once; anything else raises and changes nothing |
| `JournalLaws.UpdateIff` | medis_touch/app/execution_recovery.py:448-484 | Accepted exactly along the table, read by target state, and for the bound venue id; what is written and what is not |
| `JournalLaws.NormalizeIff` | medis_touch/app/execution_recovery.py:293-314 | Reports are accepted exactly if each first report of an id is readable and no later one differs from it by more than 1e-12; the history is those first reports |
| `Journal.ExecutionRecoveryJournal.CollectReports` | medis_touch/app/execution_recovery.py:293-314 | The loop over reported deals: first report of an id wins, a conflicting repeat is refused |
| `Journal.ExecutionRecoveryJournal.CheckHistory` | medis_touch/app/execution_recovery.py:327-336 | True exactly when every recorded deal is in the broker's history unchanged |
| `Journal.ExecutionRecoveryJournal.Totals` | medis_touch/app/execution_recovery.py:314-316 | Quantity and notional of a ledger |
| `Journal.ExecutionRecoveryJournal.RecoverFrom` | medis_touch/app/execution_recovery.py:257-365 | recover_unknown, given the row its untransacted read returned: the ledger is replaced only by a history that covers it and reconciles with the aggregate; fields and acceptance as in the next three rows |
| `JournalLaws.RecoverIff` | medis_touch/app/execution_recovery.py:257-345 | A recovery is accepted exactly if the row read was UNKNOWN with some broker identity, status and amounts can go together and fit the requested quantity, the row still is UNKNOWN, and the deals, if given, are in order, add up to the amounts (1e-9 and 1e-7, or a billionth) and include every recorded deal up to 1e-12 |
| `JournalLaws.RecoverWrites` | medis_touch/app/execution_recovery.py:346-364 | Every field afterwards: the state is the broker's status, the amounts are the reported ones, the venue id is the given one or else the old one, and the ledger is the reported history or stays, complete exactly as said |
| `JournalLaws.RecoveredStillOpenIff` | medis_touch/app/execution_recovery.py:166-180 | After a recovery the order is unresolved exactly if the broker said WORKING or PARTIALLY_FILLED, or FILLED on an incomplete ledger |
| `Journal.ExecutionRecoveryJournal.RecoverUnknown` | medis_touch/app/execution_recovery.py:257-365 | recover_unknown with nobody at work between its read and its transaction; KeyError exactly on an unknown id |
| `Journal.ExecutionRecoveryJournal.UnresolvedIds` | medis_touch/app/execution_recovery.py:166-180 | Exactly the ids of the rows that need reconciliation |
| `JournalLaws.ResolvedIff` | medis_touch/app/execution_recovery.py:166-180 | A row needs none exactly if it is CANCELLED, REJECTED, EXPIRED or RECOVERED, or FILLED on a complete ledger |
| `Journal.ExecutionRecoveryJournal.RecordStateEvent` | medis_touch/app/execution_recovery.py:386-433 | Appends the next event of a stream, accepts an exact replay without change, and raises on anything else without change |
| `StateEvents.RecordIff` | medis_touch/app/execution_recovery.py:386-433 | A sequence number already in the stream is accepted exactly if it says the same again, a new one exactly if it may follow the last; what is appended, to which stream, and that no other stream changes |
| `JournalRuns.RunEvolves` | medis_touch/app/execution_recovery.py:97-159 | Over every interleaved run: client ids injective; parent, client and quantity write-once; RECOVERY_REQUIRED never reached; REJECTED, EXPIRED and RECOVERED absorbing; no row and no fill id lost |
| `JournalRuns.StepLifecycle` | medis_touch/app/execution_recovery.py:448-484 | FILLED is left only to UNKNOWN; a bound venue id changes and amounts fall only in a recovery transaction on an UNKNOWN order; only begin_submission creates rows |
| `JournalRuns.RunAgrees` | medis_touch/app/execution_recovery.py:199-246 | Over every run that erases no ledger, a row marked complete agrees with the sum of its deals, in quantity and notional |
| `JournalRuns.RecoveryAgreesIff` | medis_touch/app/execution_recovery.py:322-364 | A recovery keeps an agreeing journal in agreement exactly when it is not one to "nothing filled", without deals, over a non-trivial ledger |
| `JournalRuns.ErasingRunDisagrees` | medis_touch/app/execution_recovery.py:347-349 | The five-step run in which it is |
| `JournalRuns.InsertedOrderFits` | medis_touch/app/execution_recovery.py:226-244 | From insertion with a quantity on, over every run: filled is at most the quantity plus 1e-9, FILLED means filled up to 1e-9, PARTIALLY_FILLED means strictly between |
| `JournalRuns.RunBoundedIff` | medis_touch/app/execution_recovery.py:226-230 | Over every run, of all orders however they came by their quantity: filled is at most requested plus 1e-9 all along exactly when no recovery read its order before a quantity was bound to it and brings more than that |
| `JournalRuns.StepBoundedIff` | medis_touch/app/execution_recovery.py:275-287 | So for each step of any journal that keeps the bound: that one kind of recovery breaks it and nothing else does |
| `JournalRuns.RacingRunOverfills` | medis_touch/app/execution_recovery.py:275-287 | The five-step race in which an order bound to one lot ends up with five |
| `JournalRuns.RunKeepsDeals` | medis_touch/app/execution_recovery.py:324-336 | A recorded deal is never dropped and moves by at most 1e-12 per step |
| `StateEvents.RunKeepsOk` | medis_touch/app/execution_recovery.py:399-433 | Over any events of both sources: sequences strictly increase, decision and fingerprint never change, cumulative fill drops at most 1e-9 per event |
| `StateEvents.FillFallsSlowly` | medis_touch/app/execution_recovery.py:426-428 | So over a whole stream it drops at most 1e-9 per event |
| `StateEvents.ReplayIsNoOp` | medis_touch/app/execution_recovery.py:401-412 | Replaying any recorded event, at any later time, changes nothing |
| `StateEvents.StreamsAreIndependent` | medis_touch/app/execution_recovery.py:386-433 | A stream depends only on what its own source said about its own order |
| `StateEvents.MirroredSourcesReachParity` | medis_touch/app/execution_recovery.py:435-439 | Sources that say the same, however interleaved, are in parity exactly when anything was said |
| `StateEvents.ParityIff` | medis_touch/app/execution_recovery.py:435-439 | Parity exactly if both streams exist, are equally long and say the same at each place |
| `Admission.PersistentPortfolioAdmission.Reserve` | medis_touch/app/pretrade_risk.py:142-178 | Expired reservations go; an identical live one is returned; a new one is held only if scope and every symbol still fit; an error changes nothing |
| `AdmissionRuns.ReserveIff` | medis_touch/app/pretrade_risk.py:142-178 | With valid arguments and no live reservation under the id: reserved exactly if committed plus live reserved plus requested fits, in the portfolio and in every requested symbol, and then as requested until now plus the time to live; a live one is confirmed exactly if it asks for the same |
| `Admission.PersistentPortfolioAdmission.CheckSymbols` | medis_touch/app/pretrade_risk.py:168-174 | True exactly when every requested symbol still fits |
| `Admission.PersistentPortfolioAdmission.Commit` | medis_touch/app/pretrade_risk.py:180-204 | Turns at most the reserved amounts into exposure, in scope and symbols, and consumes the reservation; an error changes nothing |
| `AdmissionRuns.CommitIff` | medis_touch/app/pretrade_risk.py:180-204 | Accepted exactly within what is reserved, in all and per symbol; the reservation goes and exactly the committed amounts are added to its scope |
| `Admission.PersistentPortfolioAdmission.AddSymbols` | medis_touch/app/pretrade_risk.py:201-202 | Adds each committed symbol to what the scope holds |
| `Admission.PersistentPortfolioAdmission.Release` | medis_touch/app/pretrade_risk.py:206-210 | Removes the reservation and nothing else |
| `AdmissionRuns.ReleaseWrites` | medis_touch/app/pretrade_risk.py:206-210 | No other reservation and no exposure changes |
| `AdmissionRuns.NeverOversubscribed` | medis_touch/app/pretrade_risk.py:142-210 | Under any interleaving of reserve, expiry, commit and release, committed plus reserved notional of a scope, and of each symbol, stays within the largest limit its reservations were admitted under |
| `AdmissionRuns.CommittedIsBounded` | medis_touch/app/pretrade_risk.py:142-210 | So does what is committed alone, from an empty ledger |
| `AdmissionRuns.CommitConserves` | medis_touch/app/pretrade_risk.py:180-204 | A commit lowers what is used by exactly the part of the reservation it did not commit |
| `AdmissionRuns.DroppingFrees` | medis_touch/app/pretrade_risk.py:153 | Expiry, whichever reservations it takes, only frees capacity |
| `PreTrade.Evaluate` | medis_touch/app/pretrade_risk.py:218-246 | No reason is collected exactly when all conditions hold at once |
| `OrderManagement.OrderManager.Submit` | medis_touch/app/oms.py:39-58 | A new order is stored as NEW; the same identity again returns the stored order; a different one under a known id or key raises and changes nothing |
| `OmsLaws.SubmitIff` | medis_touch/app/oms.py:39-58 | Which submission is refused, which is answered with the earlier order of the same id or key, and that any other is stored as NEW with no fills under its key |
| `OrderManagement.OrderManager.Transition` | medis_touch/app/oms.py:60-66 | Moves along the table or changes nothing |
| `OmsLaws.TransitionIff` | medis_touch/app/oms.py:60-66 | Accepted exactly along the table, read by target status; status and time are written and nothing else |
| `OrderManagement.OrderManager.RecordFill` | medis_touch/app/oms.py:68-83 | A new acceptable fill moves quantity, average and status; a known id changes nothing; an unacceptable one, or a division by zero on an order submitted with a negative fill, raises and changes nothing |
| `OmsLaws.RecordFillIff` | medis_touch/app/oms.py:68-83 | Accepted exactly if positive and within 1e-12 of what is left; then quantity and worth grow by the fill, and the order is FILLED exactly within 1e-12 of its quantity |
| `OmsLaws.RequestsStay` | medis_touch/app/oms.py:60-94 | What an order asks for is never changed by any later operation |
| `OrderManagement.OrderManager.FreezeForReconciliation` | medis_touch/app/oms.py:88-94 | Does what Freeze says of the branch: stored from UNKNOWN, returned but not stored from any other live status |
| `OmsLaws.FreezeAnswers` | medis_touch/app/oms.py:88-94 | An order that ended is answered as it is, any other marked RECOVERY_REQUIRED |
| `OmsSpec.FillsAddUp` | medis_touch/app/oms.py:68-83 | Over any deliveries with duplicates and refusals: filled is the sum over the distinct executed ids, average times filled is their worth, overshoot is at most 1e-12 per executed fill |
| `OmsSpec.AverageIsBetween` | medis_touch/app/oms.py:76-78 | The average lies between the least and the greatest executed price |
| `OmsSpec.DripOverfills` | medis_touch/app/oms.py:74 | The overshoot is real: n drips of 1e-12 are all executed, and a FILLED order falls back to PARTIALLY_FILLED |
| `OmsSpec.TerminalAbsorbs` | medis_touch/app/oms.py:60-66 | No sequence of transitions leaves or changes a terminal order |
| `OmsSpec.TerminalKeptIff` | medis_touch/app/oms.py:60-83 | Over any mix of transitions and fills a terminal order keeps its status all along exactly when no new, acceptable fill reaches it, other than one that keeps a FILLED order within 1e-12 |
| `OmsSpec.FreezeWritesIff` | medis_touch/app/oms.py:88-94 | Freezing writes exactly when the order is UNKNOWN, and then only status and time stamp |
| `Slicing.TwapSchedule` | medis_touch/app/execution_policy.py:10-13 | Equal slices, or ValueError |
| `Slicing.TwapDividesEvenly` | medis_touch/app/execution_policy.py:10-13 | Positive equal slices that add up exactly |
| `Slicing.VwapSchedule` | medis_touch/app/execution_policy.py:16-22 | Slices by volume, or ValueError |
| `Slicing.VwapIsProportional` | medis_touch/app/execution_policy.py:16-22 | Each slice has its volume's share, and they add up exactly |
| `Slicing.PovSchedule` | medis_touch/app/execution_policy.py:25-38 | The loop computes the greedy schedule |
| `Slicing.GreedySchedulesAll` | medis_touch/app/execution_policy.py:29-38 | The greedy schedule leaves at most 1e-12, in non-negative slices |
| `Slicing.ScheduleIff` | medis_touch/app/child_execution.py:11-25 | By policy, when there is a schedule and what it is: TWAP exactly for positive slices, that many equal ones; VWAP exactly on a non-empty, non-negative profile with a positive total, slice i times the total equal to quantity times volume i; POV paced; any other policy one slice |
| `Slicing.GreedyIsPaced` | medis_touch/app/execution_policy.py:29-38 | POV: slice k is what volume k allows or what is left, more follow only while more than 1e-12 is left, and the one after the last volume takes the rest |
| `Slicing.PlanIff` | medis_touch/app/child_execution.py:27-43 | There is a plan exactly when there is a schedule; its children are its positive slices, each under its number, with its quantity, and otherwise like the order |
| `Slicing.ScheduleFacts` | medis_touch/app/child_execution.py:12-25 | Every schedule is non-negative and covers the order up to 1e-12 |
| `Slicing.ChildrenKeepTheSum` | medis_touch/app/child_execution.py:30-40 | Dropping empty slices keeps the sum |
| `Slicing.ChildrenAreChildren` | medis_touch/app/child_execution.py:30-40 | Children are positive copies of the parent with increasing numbers |
| `Slicing.PlanFacts` | medis_touch/app/child_execution.py:27-43 | There is a plan whenever there is a schedule, so the conservation error never fires; it covers the order up to 1e-12 and is empty in exactly one case |
| `Slicing.EmptyPlanIff` | medis_touch/app/child_execution.py:30-43 | That case: POV, at most 1e-12 to do, first volume not positive |
| `Slicing.BuildChildren` | medis_touch/app/child_execution.py:27-43 | Builds that plan, slice by slice |
| `Venue.RetriesAreIdempotent` | medis_touch/app/venue.py:35-76 | A repeated submit or fill gives the same answer and changes nothing |
| `Venue.ExecutedIsVisible` | medis_touch/app/venue.py:81-101 | Once executed, every query by venue, order or client id sees it filled in full at its price |
| `Venue.SubmitIff` | medis_touch/app/venue.py:35-54 | Exactly what the venue takes, what it answers again and what it refuses, and what it files |
| `Venue.ExecuteIff` | medis_touch/app/venue.py:56-76 | Exactly what it fills, at which price, what it answers again and what it refuses |
| `Venue.ObserveIs` | medis_touch/app/venue.py:81-92 | What it sees of an id: unknown, working with nothing filled, or filled with the fill's amounts |
| `Venue.SimulatedVenue.SubmitOrder` | medis_touch/app/venue.py:35-54 | Accepts a new order under its own id, answers a repeat with the same id, refuses the rest, each without further change |
| `Venue.SimulatedVenue.FillOrder` | medis_touch/app/venue.py:56-76 | Executes a submitted order once, in full, at a workable price; answers a repeat with the same fill |
| `Reconciliation.Reconcile` | medis_touch/app/reconciliation.py:14-58 | Matched exactly on complete, internally consistent evidence of the same status and amount; missing evidence never counts as agreement |
| `Reconciliation.ReconcileIs` | medis_touch/app/reconciliation.py:14-58 | Which of the four actions it asks for, in every case, and matched exactly with RESUME |
| `CycleFinder.Search.FindCycles` | tools/validate_mql5_architecture.py:55-82 | Terminates; every list returned is a cycle of the graph, none twice; every closed walk contains the closing edge of a listed cycle; so the result is empty exactly when the graph on its own nodes is acyclic |
| `CycleFinder.Search.Dfs` | tools/validate_mql5_architecture.py:60-77 | Grey nodes are exactly the stack, found cycles are never forgotten, and everything newly reached is black |
| `CycleFinder.Search.CloseCycle` | tools/validate_mql5_architecture.py:65-73 | A grey successor closes a cycle; the ValueError branch is unreachable |
| `CycleFinder.FinishOrderBreaksWalks` | tools/validate_mql5_architecture.py:60-77 | Once all nodes have finished, every closed walk uses an edge that closed a listed cycle |
| `SignalLifecycle.RunIsHistory` | medis_touch/app/models.py:163-219 | For every complete setup and every feed, status and time stamps are those of the history: cut at the first ending tick, before that the targets against the best price |
| `SignalLifecycle.EndsWhenIff` | medis_touch/app/models.py:187-219 | On raw prices, over every feed of a complete setup: INVALIDATED exactly if some tick is at or past the invalidation, not late, and after no tick that was late, at or past it, or at the final target, and stamped with that tick's time; likewise EXPIRED and COMPLETED |
| `SignalLifecycle.EndingMeans` | medis_touch/app/models.py:163-219 | The first ending tick decides how, and each target carries the time of the first tick at or beyond its price up to then |
| `SignalLifecycle.LiveMeans` | medis_touch/app/models.py:163-184 | A signal that has not ended stands at the furthest target some tick has reached, with those stamps |
| `SignalLifecycle.CompleteIff` | medis_touch/app/strategy_pipeline.py:46-83 | A setup is complete exactly if stop and invalidation lie before the entry range and the targets, in order, beyond it |
| `SignalLifecycle.StaleIff` | medis_touch/app/models.py:142-160 | The staleness test at any tolerance, as distance from the entry range against its width |
| `SignalLifecycle.NeverStale` | medis_touch/app/models.py:142-160 | STALE is never entered |
| `SignalLifecycle.SellsMirrorBuys` | medis_touch/app/models.py:136-219 | A sell is a buy in negated prices, over whole runs |
| `SignalLifecycle.FirstEndMeans` | medis_touch/app/models.py:187-219 | The cut is at the first tick that expires, invalidates or completes |
| `SignalLifecycle.FirstHitMeans` | medis_touch/app/models.py:163-184 | A stamp is the time of the first tick at or beyond its level |
| `SignalLifecycle.BestMeans` | medis_touch/app/models.py:163-184 | The best price is a price seen, and none is better |
| `SignalLifecycle.HitsAreBest` | medis_touch/app/models.py:163-184 | A level was hit at some time exactly when the best price is beyond it |
| `SignalLifecycle.Signal.UpdateTargetProgress` | medis_touch/app/models.py:163-184 | Advances through as many targets as the price has reached, stamping each |
| `SignalLifecycle.Signal.EvaluateSignal` | medis_touch/app/models.py:187-219 | One tick: expiry before invalidation before targets; an ended signal stays as it is; what that does over a feed is EndsWhenIff |
| `SignalLifecycle.Signal.Follow` | medis_touch/app/models.py:187-219 | A feed, tick by tick: the run RunIsHistory speaks of |
| `Holm.HolmBonferroni` | tools/multiple_testing.py:22-47 | Accepts exactly probabilities and a proper alpha; each adjustment is the rank-free one of its value, rejected exactly below alpha |
| `Holm.Adjust` | tools/multiple_testing.py:34-41 | The running maximum over ranks gives each index the rank-free adjustment |
| `Holm.RunningIsHolm` | tools/multiple_testing.py:34-41 | Running maximum over ranks equals greatest level among values up to this one, ties included |
| `Holm.StepDownIff` | tools/multiple_testing.py:34-47 | Rejected exactly when every sorted p-value up to its own rank j satisfies (m - j) p < alpha |
| `Holm.RejectedIff` | tools/multiple_testing.py:34-47 | The same without ranks |
| `Holm.HolmIsUnique` | tools/multiple_testing.py:34-41 | The values determine the adjustment |
| `Holm.HolmIsMonotone` | tools/multiple_testing.py:34-41 | Monotone, and equal for ties |
| `Holm.HolmIsConservative` | tools/multiple_testing.py:34-41 | Between the raw value and one |
| `Holm.HolmIsPositionFree` | tools/multiple_testing.py:33 | Permuting the input permutes the output |
| `Evidence.ValidateFolds` | tools/build_tester_evidence.py:287-314 | Accepts exactly distinct folds with ordered windows, sorted by id |
| `Evidence.FoldOkIff` | tools/build_tester_evidence.py:287-314 | A fold is in order exactly if its windows follow each other between the period start and the locked window |
| `Evidence.NormalizeTrades` | tools/build_tester_evidence.py:321-411 | Accepts exactly trades that match a window or are excluded on purpose, and partitions them |
| `Evidence.AcceptableIff` | tools/build_tester_evidence.py:321-411 | A trade is permitted exactly if it opened and resolved within the period and opened in some window, or in one excluded on purpose |
| `Evidence.Place` | tools/build_tester_evidence.py:350-398 | Locked window or folds, for one trade |
| `Evidence.EmittedIff` | tools/build_tester_evidence.py:355-394 | The output has exactly the rows its trades are entitled to |
| `Evidence.EachRowOnce` | tools/build_tester_evidence.py:355-394 | None of them twice |
| `Evidence.CountsAre` | tools/build_tester_evidence.py:350-411 | The excluded, the censored trades and the cut-offs are counted as what they are |
| `Evidence.Assign` | tools/build_tester_evidence.py:370-398 | The loop over folds for one trade |
| `Evidence.TrainPrecedesValidation` | tools/build_tester_evidence.py:376-394 | Every train row of a fold resolves strictly before any validation row of it opens, and no trade is in both |
| `Evidence.FoldsPrecedeLockedOos` | tools/build_tester_evidence.py:355-394 | Every train or validation row resolves strictly before any locked row opens, and none is a locked trade |
| `Evidence.RowsAreRightful` | tools/build_tester_evidence.py:355-394 | An emitted row opened and resolved inside its window |
| `Evidence.RowsAreComplete` | tools/build_tester_evidence.py:355-394 | Every role a trade matured in is emitted |
| `Evidence.EveryRowIsAccountedFor` | tools/build_tester_evidence.py:350-411 | Input rows are the excluded, the fully censored and those emitted at least once |
| `Gating.Decide` | tools/gating.py:77-132 | Validation, the shortage of cycles and the loops give the decision that the recent moves call for |
| `Gating.ActionIff` | tools/gating.py:77-132 | Every decision on sound evidence: which of INSUFFICIENT_DATA, ROLLBACK, PROMOTE and HOLD, from the intervals of the last k + 1 cycles alone |
| `Gating.VerdictsAre` | tools/gating.py:77-132 | Which histories are accepted, and the verdict reported on each of the three metrics |
| `Gating.CollectMoves` | tools/gating.py:87-97 | The moves of a metric, transition by transition |
| `Gating.Weigh` | tools/gating.py:99-126 | The loop over metrics chooses the action the recent moves call for |
| `Gating.ValidateCycles` | tools/gating.py:66-74 | Accepts exactly identified cycles of one known source |
| `Gating.MovedUpIff` | tools/stats.py:133-154 | With estimates inside their intervals, "up" is exactly a disjoint higher interval |
| `Gating.PromoteIff` | tools/gating.py:77-132 | PROMOTE exactly when each gated metric rose to a disjoint higher interval in each of the last k transitions |
| `Gating.PromotionClimbs` | tools/gating.py:77-132 | So its interval k cycles ago lies wholly below the latest |
| `Gating.OnlyRecentCyclesDecide` | tools/gating.py:77-132 | Only the last k + 1 cycles of a valid history matter |
| `Gating.RollbackIff` | tools/gating.py:109-126 | ROLLBACK exactly on a contradiction anywhere or a decline everywhere |
| `PositionLedger.ReconstructPositions` | tools/position_ledger_metrics.py:134-177 | Raises exactly on an inconsistent group; otherwise lists the completed positions in order and counts the ignored ones by reason |
| `PositionLedger.Group` | tools/position_ledger_metrics.py:135-141 | Every id has exactly its rows, in time order |
| `PositionLedger.Book` | tools/position_ledger_metrics.py:143-176 | One verdict is listed in its place or counted once |
| `PositionLedger.EveryIdIsAccountedFor` | tools/position_ledger_metrics.py:134-177 | Positions plus ignored counts are the distinct position ids |
| `PositionLedger.RowOrderIsIrrelevant` | tools/position_ledger_metrics.py:134-177 | Ledgers with the same rows, in any order, give the same report |
| `PositionLedger.CompletedIsClosed` | tools/position_ledger_metrics.py:150-175 | A completed position is closed up to the tolerance, its net is the sum of its parts and every row is used |
| `LedgerLaws.ClassIff` | tools/position_ledger_metrics.py:143-176 | Which verdict a group of deals gets, in the order in which they are tried |
| `LedgerLaws.CompleteReports` | tools/position_ledger_metrics.py:150-175 | Every figure of a completed position, as sums, first entry, last exit, first risk and first lane of its rows |
| `LedgerLaws.BeforeIff` | tools/position_ledger_metrics.py:176 | The order of the list is that of the first difference of ids |
| `LedgerLaws.KindsOfResult` | tools/position_ledger_metrics.py:183-197 | A win, a loss and a flat result, at 1e-7 |
| `LedgerMetrics.Drawdown` | tools/position_ledger_metrics.py:198-206 | The running peak gives the greatest fall of the balance from any point to a later one |
| `LedgerMetrics.LosingStreak` | tools/position_ledger_metrics.py:189-197 | The running counter gives the longest losing run |
| `LedgerMetrics.CalculateMetrics` | tools/position_ledger_metrics.py:180-278 | Refuses exactly a non-positive initial balance; every figure is the one its definition gives |
| `LedgerMetrics.ReportIsConsistent` | tools/position_ledger_metrics.py:180-278 | Final balance is initial plus profit; wins, losses and flats partition positions and profit; lane sums add up to the totals; the drawdown is not negative |
| `LedgerMetrics.LanesAddUp` | tools/position_ledger_metrics.py:207-210 | Whatever is summed, the lanes' sums add up to the whole |

## Left out

Weaker or assumed in the rows above:

- Coordinator.GovernedExecutionCoordinator.Execute: assumes an incoming order with filled quantity 0 and no average price, as the order manager keeps both; has one time stamp for the whole call, and no other user of the stores while it runs, so that its reservation cannot expire in between. The control state, the router's verdict and the lineage fingerprint are parameters; of cost analysis only the check that raises is modelled, of surveillance nothing.
- Coordinator.GovernedExecutionCoordinator.constructor: the refusals of the source's constructor (no approved hash, no scope) are preconditions, and the journal it is given names only journaled parents, which every later call maintains.
- Coordinator.GovernedExecutionCoordinator.ExecuteMany: the control state and the router answer anything, each time; an order id occurring in two batches is covered by the journal's refusal of known ids.
- ExecutionExits.EveryExitAccounts: for an order id without a live reservation on entry; FailingCalls.RetryReleases shows why.
- ExecutionExits.ThroughIsExecuted: amounts up to the tolerances the source accumulates, 1e-9 per child below and 1e-12 per child above.
- Interleaving.AtMostOnce: a worker's steps other than its journal operations and broker calls are one step that may raise at any time; its order manager, events and reservation are not followed there. WorkerSteps.LoopIsARun ties the coordinator's loop to it.
- Interleaving.WriteAheadAlways: same abstraction.
- AdmissionRuns.NeverOversubscribed: relative to the largest limits any reservation of the scope was admitted under, as limits are an argument of each call.
- JournalRuns.RunKeepsDeals: a recovery may move a deal by 1e-12, as the source accepts it.
- JournalRuns.RunAgrees: for runs without a recovery that erases a ledger; RecoveryAgreesIff says exactly which those are.
- SimulatedExecution.SimulatedExecutionIff: for an order, children and event stream that are new to journal and venue, and enough liquidity per child. The venue fills at the price it is asked for, or at one of its own; in the first case, that of the simulated venue, the quoted arrival price is positive. A quote the market has moved past is SimulatedExecution.StaleQuoteStops.
- PositionLedger.RowOrderIsIrrelevant: a row keeps its number when rows are reordered; the number breaks ties in time.
- PositionLedger.ReconstructPositions: rows have distinct numbers, as the reader assigns them.
- LedgerMetrics.CalculateMetrics: counts, profit, gross win and loss, equity, cash drawdown, streaks and lanes only; percentages, averages, R multiples and rounding are not modelled.
- Gating.Decide: reasoning texts and weight versions are not modelled.
- Gating.CollectMoves: collects metric by metric where the source goes transition by transition.
- SignalLifecycle.RunIsHistory: for setups that validation accepts.

Not modelled:

- Floating point: quantities are reals, so finiteness checks and rounding do not occur. Exception messages.
- SQLite, WAL, timeouts and schema upgrade: each transaction is one atomic step on maps. Fill ids are compared as given; only the reports of a recovery are taken as already stripped.
- SHA-256 identities, wall-clock time and UUIDs: abstract values, explicit parameters, and ids built by distinct constructors. Of an order's metadata, the entries the core reads.
- `RiskReservationBook` and a coordinator without journal or persistent admission: the process-local configuration, whose guarantees are weaker versions of the ones proved here.
- `recover_unknown_by_client_order_id`, `fill_ledger`, `snapshot`, `expire`, `cancel`: a lookup followed by a modelled operation, or a listing.
- `adaptive_policy`, router scoring, throttles, surveillance rules, control-state classification and lineage: single-branch checks.
- `cycle_id` values, weight versions and reasoning texts of the gate; the CSV, manifest and date parsing before the evidence and ledger tools.
- The interval formulas of `tools/stats.py` (Wilson, AUC, Pearson): they need square roots, logarithms and tanh.
- Telegram bot, API, database models, payments, subscriptions, configuration settings and the EA: plumbing around the core.
