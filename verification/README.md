# MoneyFlow: a verified model of its money-moving core

MoneyFlow moves money with event-sourced sagas over a two-phase, double-entry
ledger. Its Go core decides by optimistic concurrency: load a stream, decide,
append against the length that was loaded. Its Ruby side reads a model folded
from what Go publishes. This project models that core in Dafny and proves what
it promises over whole runs: any number of concurrent drivers, crashes, claim
takeovers, redeliveries and rollback requests, in any interleaving.

The model has four layers. Each layer's theorems are what the next one assumes.

1. **Ledger.** `Ledger` specifies accounts, linked runs, reservations and
   idempotent ids; `FakeClient` (module `LedgerClient`) is the imperative client
   proved against it; `LedgerInvariant` and `LedgerRuns` hold what every history
   keeps, `LedgerExact` exactly when the books stay right, `LedgerFunding` what it
   takes for a run to be let through, `LedgerAnswers` what the codes a request gets
   say about it; `LedgerWitness` shows where promises stop.
2. **Transfer.** `TransferStream` has the folds and the lifecycle,
   `TransferProtocol` the step relation over stream, ledger and drivers,
   `TransferAgreement` the invariant, `TransferTheorems`, `TransferFailure`,
   `TransferExact` and `TransferWitness` the results. `TransferProgress` and
   `ProgressWitness` say what one driver gets done by itself. `TransferChains` cuts
   batches and `TransferBatch` submits them and reads the answers, `Manifest` and
   `ManifestLedger` select and reverse legs, `TransferNet` reads off the ledger what
   a Transfer moved.
3. **Transaction.** `Dag` and `ValidateDag` cover the dependency graph,
   `TransactionStream` and `TransactionOrder` the stream, `TransactionSaga` the
   step relation, `TransactionInvariant` and `TransactionTheorems` the results,
   `TransactionFailure` what a failed rollback means. `TransactionProgress`,
   `RollbackProgress` and `RollbackExact` say exactly where a Transaction can still
   get to, and `RollbackWitness` gives rollbacks that do.
   There a child's Transfer appears as the coarse outcome that
   `TransferTheorems.OutcomeMovesLawfully` says it moves by. `TransactionLedger`
   sets the saga over one ledger, on which every child's Transfer and Reversal is
   a run of its own; `TransactionWitness` gives one such world.
4. **Composition.** `Isolation` (Token tags) and `IsolationLedger` (the same over
   the shared ledger). `TransactionSystem` steps a Transaction, the Transfers and
   Reversals of its children and everyone else together over one ledger;
   `SystemInvariant`, `SystemTheorems` and `SystemWitness` hold what that keeps,
   its results and a run. `Balance` and `BalanceExact` (recorded balances),
   `Projection` and `ReadModel` (the Ruby projector), `Consumer` (offsets),
   `Recovery` and `RecoveryCash` (the debt sweep) and `EventStore` (the append every
   layer uses).

A protocol is a step relation: a world, actions that are enabled or not, and a
function from one world to the next. A result about `Reachable(w)` holds in every
world that any finite sequence of actions reaches from the start. Clocks,
randomness and staleness are choices an action makes freely, ids are drawn
injectively, and reason texts are left off the streams.

## Hypotheses

- Ledger: a Transfer's own runs use different ids and different accounts
  (`LedgerInvariant.Proper`), and so the books stay right. What the ledger does
  with any other request is settled exactly: `LedgerExact.HistoryKeepsBooksExactly`
  for histories, `LedgerInvariant.RunConservesExactly` for drift, with
  `LedgerWitness.RepeatedIdBreaksPending` as an input.
- Flags: a pending credit counts towards what an account may spend and a void
  checks no flag, so the flag bound is proved for histories without voids.
  `LedgerInvariant.VoidKeepsFlagsExactly` says exactly which voids keep it and
  `LedgerWitness.VoidCanOverdraw` gives one that does not.
- Slow claimants: a driver checks its claim and records Failed in two steps, so a
  Failed can land after another driver has posted. This is reachable for
  immediate and for staged Transfers (`TransferWitness`).
  `TransferExact.FailedStaysUnmovedExactly` says exactly when a Failed Transfer has
  moved nothing and never will; it takes accounts to have at most one of their two
  flags, which `go/internal/ledger/fake_client.go:14-15` calls mutually exclusive.
  `TransferFailure` gives ways of driving that suffice: no Failed recorded on a
  Pending Transfer under a lost claim (staged), or no step by a driver whose claim
  was lost (immediate). Where a Transaction's money is at stake, these are asked of
  the children that ended Failed (`TransactionLedger.HonestlyFailed`), and the
  theorems beside say what holds without them.
- Isolation: a child that spends a Token depends, perhaps through others, on the
  child that minted it; no outside caller names this Transaction as its owner; and
  a Reversal of a child is asked for only by its own Transaction. In
  `TransactionSystem` these are what its actions allow.
- Recording: a driver refused by the ledger was refused before its step wrote
  anything, so a step of several chains refused midway, or a void that a confirm
  overtakes, is not among the steps `Balance` displaces by a Failed.

## Where code and comments differ

The model follows the code.

- `go/internal/transfer/saga.go:242-247` says nothing can ever follow a rejected
  request. A refused Confirm, Cancel or Post is appended to such a stream. What
  holds is that no state and no claim follows
  (`TransferStream.RejectedStaysRejected`).
- `go/internal/token/balance.go:32-37` says the last recording reflects every write
  that preceded it. A recorder that finds figures equal to the last recording
  skips without a trace, and then an older observation can still land after it.
  A Failed, which carries no balances, can also land over a step that has written.
  Order of observation is proved; `Balance.SkippedReturnLeavesStaleBalance` and
  `Balance.LateFailureLeavesNoBalance` show the end states, and
  `BalanceExact.SettlesCurrentExactly` when they can come.
- `go/internal/transaction/saga.go:844-851` says a run records how an awaited Reversal
  resolved, and loops if it recorded anything. Lines 299-312 take a fact of the same
  type for one already recorded, and lines 390-391 let rollback facts of a child
  land in any order. Two runs that undo one child at once can record it as stuck and
  then as being reversed. If that Reversal ends without committing, nothing more is
  recorded and the rollback never concludes. `RollbackProgress.ConcludesExactly`
  says that this is the only dead end, and `RollbackWitness.WedgedIsReachable` gives
  a run to it.

## Model

| member | source | states |
|---|---|---|
| `LedgerClient.TryEntry` | go/internal/ledger/fake_client.go:222-286 | one entry of a run against the shadow totals gets exactly the verdict the specification gives, and shifts the totals only when accepted |
| `LedgerClient.TryRun` | go/internal/ledger/fake_client.go:196-286 | a run judged on shadow totals: every code, and failure exactly when some entry is neither OK nor Exists |
| `LedgerClient.CommitRun` | go/internal/ledger/fake_client.go:288-314 | writing an accepted run through leaves exactly the books the shadow predicted |
| `LedgerClient.ScanRun` | go/internal/ledger/fake_client.go:94-111 | a run ends at its first unlinked entry |
| `LedgerClient.FakeClient.SubmitRun` | go/internal/ledger/fake_client.go:196-314 | a run applies whole or leaves the books as they were; its codes are all OK or Exists if and only if it applied, and a refused one names a verdict that refuses |
| `LedgerClient.FakeClient.CreateTransfers` | go/internal/ledger/fake_client.go:174-317 | a request is refused whole (too large, open chain) or applied run by run, each entry told its own code; for distinct ids over sound books an entry is told Exists if and only if it was on record before, and OK or Exists if and only if it is on record after |
| `LedgerAnswers.CodesTellAcceptance` | go/internal/ledger/fake_client.go:196-314 | a run is taken if and only if every entry is told OK or Exists; in a refused one no entry is told OK, some entry has a verdict that refuses, and each is told its own refusal or that its chain failed |
| `LedgerAnswers.AnswersAreTheRecord` | go/internal/ledger/fake_client.go:174-317 | over a whole request of several runs the codes say what was on record before it and what is after |
| `LedgerExact.HistoryKeepsBooksExactly` | go/internal/ledger/fake_client.go:174-317 | over every history of openings and requests whatever: all totals are the sums of what is on record and posted debits equal posted credits, if and only if no applied entry wrote over a record that moved money or over an open reservation, and no money on record moved or is held from an account to itself |
| `LedgerExact.RunKeepsBooksExactly` | go/internal/ledger/fake_client.go:196-314 | one run over right books leaves them right if and only if it is refused, or no entry it applies writes over money and none moves or reserves any from an account to itself; repeated ids alone do no harm |
| `LedgerInvariant.HistoryKeepsFlags` | go/internal/ledger/fake_client.go:272-281 | over every history without voids every account stays within its flag |
| `LedgerInvariant.ReconciledTotalsAreNatural` | go/internal/ledger/fake_client.go:261-262 | no total is ever negative, so a settlement never underflows |
| `LedgerInvariant.RunConservesExactly` | go/internal/ledger/fake_client.go:283-284 | a run keeps debits equal to credits if and only if it is refused or applies no move from an account to itself |
| `LedgerInvariant.VoidKeepsFlagsExactly` | go/internal/ledger/fake_client.go:250-284 | a void leaves flags respected if and only if both accounts have room for losing the reservation |
| `LedgerRuns.RunRecords` | go/internal/ledger/fake_client.go:288-314 | an accepted run is on record whole, and a run records nothing but its own |
| `LedgerRuns.ResubmittingConverges` | go/internal/ledger/fake_client.go:225-233 | submitting a recorded run again, at any later time, is accepted and changes nothing |
| `LedgerRuns.RefusedPostLostItsReservation` | go/internal/ledger/fake_client.go:250-281 | while no account is beyond its flag, a run of posts is refused only if one of its reservations is no longer open |
| `LedgerWitness.VoidCanOverdraw` | go/internal/ledger/fake_client.go:272-284 | three proper runs over balanced books overdraw a capped account by voiding a promised credit |
| `LedgerWitness.RepeatedIdBreaksPending` | go/internal/ledger/fake_client.go:225-225 | the same reservation twice in one run leaves more pending than the open reservations hold |
| `TransferStream.TerminalIsFinal` | go/internal/transfer/saga.go:82-124 | nothing that moves or claims a Transfer follows a terminal outcome |
| `TransferStream.ClaimsAgree` | go/internal/transfer/saga.go:609-728 | all claims between two outcomes are of one transition |
| `TransferStream.RejectedStaysRejected` | go/internal/transfer/saga.go:248-255 | no state and no claim ever follows a rejected request |
| `TransferTheorems.Lifecycle` | go/internal/transfer/saga.go:82-124 | every reachable stream walks the lifecycle to at most one terminal outcome, with agreeing claims and no cancel of a prepared Transfer over a claim |
| `TransferAgreement.StepKeeps` | go/internal/transfer/saga.go:427-549 | every step of every driver keeps stream, ledger and what each driver knows in agreement |
| `TransferTheorems.LedgerAgreement` | go/internal/transfer/saga.go:1074-1298 | Committed: every leg posted exactly once; Cancelled: nothing moved and every reservation voided |
| `TransferTheorems.NeverPostsOneVoidsAnother` | go/internal/transfer/saga.go:389-451 | however posters and voiders race, no leg is posted while another leg of the Transfer is voided |
| `TransferTheorems.OutcomeMovesLawfully` | go/internal/transfer/saga.go:212-240 | each step moves the outcome a Transaction reads along its own lifecycle |
| `TransferExact.FailedStaysUnmovedExactly` | go/internal/transfer/saga.go:1194-1317 | a Failed Transfer, staged or immediate, has moved nothing and never will if and only if it has no legs, or its first leg is unmoved and either voided or beyond every driver still submitting |
| `TransferWitness.StagedFailureCanMoveMoney` | go/internal/transfer/saga.go:1312-1317 | a reachable world where a staged Transfer is Failed and its leg posted |
| `TransferWitness.ImmediateFailureCanMoveMoney` | go/internal/transfer/saga.go:1312-1317 | a reachable world where an immediate Transfer is Failed and its leg posted |
| `TransferNet.CommittedNets` | go/internal/transfer/saga.go:1127-1180 | a Committed Transfer's records on the ledger move each Token by exactly what its legs say |
| `TransferChains.Chains` | go/internal/transfer/saga.go:389-399 | cuts a batch into chains of at most the ledger's limit: every entry is in its own place of its own chain, linked unless it ends it |
| `TransferChains.ChainIsOneRun` | go/internal/transfer/saga.go:456-472 | each chain is one request the ledger takes as a single all-or-nothing run |
| `TransferBatch.SubmitChain` | go/internal/transfer/saga.go:456-472 | one request, and a refusal if and only if some answer is neither OK nor Exists, naming the first such leg of the whole batch with its code |
| `TransferBatch.SubmitBatch` | go/internal/transfer/saga.go:427-451 | chain after chain until one is refused: the books are those the accepted chains leave, no refusal if and only if all were, and a refusal counts the chains applied before it |
| `TransferBatch.SubmitNextReadsAnswers` | go/internal/transfer/saga.go:427-472 | the step relation's next step, which looks at acceptance, is the one the answers decide |
| `TransferProgress.StepRunsToItsOutcome` | go/internal/transfer/saga.go:1074-1298 | from any reachable world, a driver holding its claim whose chains the ledger lets through gets by itself to Staged, Committed or Cancelled, whichever its job is for, and leaves the books its chains leave |
| `TransferProgress.RefusedStepFailsOrStops` | go/internal/transfer/saga.go:1074-1317 | refused before any money moved it records Failed by itself; refused after, or refused a void, it stops with nothing recorded |
| `TransferProgress.AcceptedRunsToItsOutcome` | go/internal/transfer/saga.go:1400-1466 | from Accepted with a plan the ledger can fund, one driver gets to Staged if staging was asked for and to Committed otherwise |
| `TransferProgress.TakenOverRunsToItsOutcome` | go/internal/transfer/saga.go:609-728 | from any later state a step that is due, its claim free or stale, is taken over and gets to its outcome |
| `TransferProgress.StagedCanBeConfirmed` | go/internal/transfer/server.go:381-427 | a staged Transfer is confirmed by one driver alone, the books unchanged |
| `TransferProgress.OvertakenOutcomeLands` | go/internal/transfer/saga.go:509-549 | however often a driver recording an outcome has been overtaken, it records it by itself as long as that outcome may still follow |
| `TransferProgress.CanBeDecided` | go/internal/transfer/server.go:381-427 | a request is answered either way once, an accepted Transfer can be cancelled or fail before it is prepared, and a settlement command at the wrong time is refused on record |
| `ProgressWitness.StagedCanBeCancelled` | go/internal/transfer/saga.go:1261-1298 | a reachable Transfer staged and cancelled, its reservation voided |
| `ProgressWitness.StagedCanBeCommitted` | go/internal/transfer/saga.go:1126-1180 | a reachable Transfer staged, confirmed and committed, its leg posted once |
| `Manifest.SelectSourceTokens` | go/internal/transfer/manifest.go:47-98 | on success: positive takes from listed Tokens, oldest first, each Token passed over empty and each but the last drained to its posted credits less its posted debits, summing to the amount; otherwise exactly what is missing, if and only if the Tokens together hold less; an overflow error if and only if one is met first |
| `ManifestLedger.SelectionOverdrawsNobody` | go/internal/transfer/manifest.go:47-98 | posting a selection over the books it was read from overdraws no account that was not overdrawn, whether the ledger takes it or refuses |
| `Manifest.FifoIsUnique` | go/internal/transfer/manifest.go:61-87 | oldest first, drained before the next, summing to the amount: there is only one such list |
| `Manifest.ReversalManifest` | go/internal/transfer/manifest.go:218-264 | not found, not committed, no legs, or every prepared leg swapped, in order |
| `Manifest.LawfulPreparesOnce` | go/internal/transfer/manifest.go:235-257 | on a lawful stream those are exactly the Transfer's own legs |
| `Manifest.ReversedTwice` | go/internal/transfer/manifest.go:250-257 | reversing twice gives the originals |
| `Manifest.ReversedNet` | go/internal/transfer/manifest.go:250-257 | a Reversal moves every Token back by exactly what the original moved it |
| `ValidateDag.ValidateDAG` | go/internal/transaction/dag.go:58-120 | accepts if and only if the request is non-empty, narrow enough, well formed, without dangling references and acyclic, whatever order maps are read in; each error names a fault the request has, and a cycle only one whose references all resolve |
| `ValidateDag.Drain` | go/internal/transaction/dag.go:96-119 | Kahn's loop processes every node if and only if there is no cycle, duplicate parents included |
| `ValidateDag.BuildGraph` | go/internal/transaction/dag.go:78-94 | in-degrees and child lists mirror the dependencies, or some reference dangles |
| `ValidateDag.ValidateMoney` | go/internal/money/money.go:17-28 | passes if and only if an amount is present with a currency and more than zero |
| `ValidateDag.CheckChildren` | go/internal/transaction/dag.go:69-76 | no fault if and only if every child is under its own id with a valid amount |
| `ValidateDag.ScanReadyToRun` | go/internal/transaction/dag.go:158-178 | returns each untouched child with all parents completed, once |
| `ValidateDag.ScanReadyToRollback` | go/internal/transaction/dag.go:222-251 | returns each touched, unresolved child not in flight on which no active child depends, once |
| `Dag.SomethingReadyToRun` | go/internal/transaction/dag.go:158-178 | with nothing in flight and something untouched, an acyclic graph has a ready child |
| `Dag.SomethingReadyToRollback` | go/internal/transaction/dag.go:222-251 | with something unresolved, an acyclic graph has a child nothing active depends on |
| `TransactionStream.PendingFor` | go/internal/transaction/saga.go:329-343 | a child's outcome with everything it decides in turn, after which nothing is left to decide |
| `TransactionStream.SpineIsWellShaped` | go/internal/transaction/saga.go:293-403 | top-level events follow the lifecycle, and a rollback fails only once Started |
| `TransactionStream.OneOutcome` | go/internal/transaction/saga.go:374-387 | a child in flight has no other fact, and no child both completes and fails |
| `TransactionOrder.AppendsKeepStored` | go/internal/transaction/saga.go:293-403 | what appendSagaStep decides to append keeps the stream lawful with nothing undecided while Started |
| `TransactionOrder.SliceKeepsStored` | go/internal/transaction/saga.go:692-742 | a slice appended against the fold that chose it is lawful |
| `TransactionOrder.FirstSliceKeepsStored` | go/internal/transaction/saga.go:515-536 | so is the first slice, led by TransactionStarted in the same append |
| `TransactionOrder.StartedNeverStalls` | go/internal/transaction/saga.go:538-580 | Started, nothing in flight, nothing decided: some child is ready |
| `TransactionOrder.RolledBackMeansResolved` | go/internal/transaction/saga.go:451-475 | a rollback concludes RolledBack if and only if every touched child is resolved |
| `TransactionOrder.RollbackFailedMeansHopeless` | go/internal/transaction/saga.go:945-982 | it concludes RollbackFailed if and only if some child is stuck, no Reversal runs, and every unresolved child is stuck or held up by a stuck one |
| `TransactionOrder.FreeIsDeep` | go/internal/transaction/dag.go:222-251 | once direct dependents are resolved, so is every touched child depending through others |
| `TransactionInvariant.StepKeepsInv` | go/internal/transaction/saga.go:504-642 | every load, call, append, crash and outside move keeps the stream stored, each fact backed by an outcome that can no longer change, and requests behind recorded intents |
| `TransactionInvariant.ActKeeps` | go/internal/transaction/saga.go:999-1083 | each way rollbackChild undoes a child keeps that invariant |
| `TransactionTheorems.StreamShape` | go/internal/transaction/saga.go:293-403 | every reachable stream is well shaped, repeats no event, has nothing after a terminal, and while Started has no failed child and some child not completed |
| `TransactionTheorems.RequestOrder` | go/internal/transaction/saga.go:692-742 | a child is requested only after every parent completed, and never after a rollback started |
| `TransactionTheorems.UndoOrder` | go/internal/transaction/saga.go:905-982 | when a run acts to undo a child, every touched transitive dependent is rolled back or failed on the stream |
| `TransactionTheorems.UndoneOrder` | go/internal/transaction/saga.go:905-982 | and so at the point where each rollback fact was recorded |
| `TransactionTheorems.NeverStalls` | go/internal/transaction/saga.go:538-642 | Started with nothing in flight, some child is ready; rolling back with no Reversal under way, no child is left to undo if and only if all are resolved, or one is stuck and every unresolved one is stuck or held up by a stuck one |
| `TransactionTheorems.CompletedIsCommitted` | go/internal/transaction/saga.go:426-479 | Completed: every child's Transfer committed and none is reversed |
| `TransactionTheorems.RolledBackIsUndone` | go/internal/transaction/saga.go:853-1083 | RolledBack: each child never existed, ended uncommitted, or committed together with its committed Reversal |
| `TransactionFailure.StuckMeansUnreversed` | go/internal/transaction/saga.go:853-1083 | over every run, a child recorded as stuck has a Reversal that ended without committing, or had been staged or pending and committed or failed before its cancel; one never reserved is stuck only for its Reversal's sake |
| `TransactionFailure.RollbackFailedIsHeldUp` | go/internal/transaction/saga.go:945-1083 | RollbackFailed: some child is stuck for such a reason, and every touched child ended uncommitted, committed together with its Reversal, or is held up by one that is stuck |
| `TransactionProgress.CompletesExactly` | go/internal/transaction/saga.go:504-580 | from every reachable world not yet rolling back, some continuation completes the Transaction if and only if no child's Transfer has ended without committing |
| `TransactionProgress.FailureStartsRollback` | go/internal/transaction/saga.go:755-826 | once a child's Transfer has been rejected, failed or cancelled, a run by itself records that and starts the rollback |
| `TransactionProgress.AloneActsOnWhatStands` | go/internal/transaction/saga.go:504-642 | a run no other caller disturbs dispatches against the stream as it stands, so its slice lands, and undoes only children that stream still offers |
| `TransactionProgress.SliceIsWhole` | go/internal/transaction/saga.go:692-742 | a slice is all that is ready, unless that is more than one step may take |
| `RollbackProgress.ConcludesExactly` | go/internal/transaction/saga.go:504-642 | from every reachable open world, some continuation reaches a terminal state if and only if no child is wedged: recorded as stuck, then as being reversed, its Reversal ended without committing |
| `RollbackProgress.RollsBackWhole` | go/internal/transaction/saga.go:581-642 | some continuation rolls everything back if no child is stuck and no Reversal has ended without committing, and none does once one has |
| `RollbackExact.RollsBackExactly` | go/internal/transaction/saga.go:581-642 | from every reachable open world where nobody is at work, some continuation rolls everything back if and only if no child is stuck and no Reversal has ended without committing |
| `RollbackProgress.CommittedCanBeReversed` | go/internal/transaction/saga.go:853-1083 | and it can then end with any committed child's Transfer and its Reversal both committed |
| `RollbackProgress.UnreversedFails` | go/internal/transaction/saga.go:853-890 | once a Reversal has ended without committing, a rollback that is not wedged can conclude, as RollbackFailed |
| `RollbackWitness.WedgedIsReachable` | go/internal/transaction/saga.go:293-403 | a run of two rollback runs to a world with a wedged child |
| `RollbackWitness.ReversedIsReachable` | go/internal/transaction/saga.go:853-1083 | a reachable rolled back Transaction whose child and its Reversal both committed |
| `RollbackWitness.UnreversedIsReachable` | go/internal/transaction/saga.go:853-1083 | a reachable failed rollback whose child committed and whose Reversal failed |
| `TransactionLedger.RolledBackNetsExactly` | go/internal/transaction/saga.go:853-1083 | RolledBack: over one ledger, the records of all its Transfers and Reversals move each Token by exactly what its Failed children's records moved it |
| `TransactionLedger.RolledBackNetsToZero` | go/internal/transaction/saga.go:853-1083 | hence by nothing when the Failed ones were driven honestly, and each Token's posted balance is what everyone else's records make it |
| `TransactionWitness.RolledBackCanLeaveMoneyMoved` | go/internal/transaction/saga.go:853-1083 | a reachable rolled back Transaction whose child failed late, on a ledger where a Token's net is not zero |
| `Isolation.TokensOfVisibleTo` | go/internal/wallet/tokens.go:67-98 | the scan keeps, in mint order and missing none, the Tokens that are untagged, the caller's own or answered closed, and all of them without a checker |
| `Isolation.VisibleIsSeen` | go/internal/wallet/tokens.go:67-98 | a Token is kept if and only if it is listed untagged, as the caller's own, or with a tag that answered closed |
| `Isolation.ClosedStaysClosed` | go/internal/transaction/server.go:87-98 | a closed Transaction's stream never changes again |
| `Isolation.OpenExactly` | go/internal/transaction/server.go:87-98 | a Transaction counts as open if and only if something may still be recorded of it, or its rollback failed |
| `Isolation.ClosedTokensAreFree` | go/internal/wallet/tokens.go:67-98 | once it has completed or been rolled back, every scan begun from then on ends with all its Tokens of that Wallet visible |
| `Isolation.OutsidersKeepOut` | go/internal/wallet/tokens.go:67-98 | while a Transaction is open, no leg anyone else planned or posted touches a Token it tagged |
| `IsolationLedger.ReversalFindsExactly` | go/internal/transaction/saga.go:905-1083 | before a Reversal posts anything, the posted balance of the Token its child paid into is what the Reversal takes, plus what children that ended Failed moved there |
| `IsolationLedger.ReversalFindsItsMoney` | go/internal/transaction/saga.go:905-1083 | hence exactly what the Reversal takes when the Failed ones depending on that child were driven honestly |
| `SystemInvariant.StepKeeps` | go/internal/transaction/saga.go:504-1083 | every step of the Transaction, of any of its Transfers or Reversals, of an outside caller or of the ledger keeps each of them a run of its own on the one ledger at the outcome the saga reads, plans fitting, books right and outside postings known |
| `SystemTheorems.RolledBackLeaves` | go/internal/transaction/saga.go:853-1083 | in every reachable world of the whole system, once RolledBack: the Transaction's records move each Token by exactly what its Failed children's do, and each account holds that and what everyone else's records make it |
| `SystemTheorems.ReversalFinds` | go/internal/transaction/saga.go:905-1083 | in every reachable world of the whole system, before a committed child's Reversal posts anything, the Token the child paid into holds what the Reversal takes, plus what Failed children moved there |
| `SystemWitness.ReversalCanFindMoney` | go/internal/transaction/saga.go:999-1083 | a run to such a world, with money at stake |
| `Balance.RecordingsAreInOrder` | go/internal/token/balance.go:41-156 | recordings are figures the account had, each read after every earlier recording landed |
| `BalanceExact.SettlesCurrentExactly` | go/internal/transfer/saga.go:509-549 | from any reachable moment, over everything drivers may do once the account is written no more (early returns, lost claims, crashes and late Failed included), every end with all steps concluded leaves the last recording at the account's balance if and only if it is there and nobody can land outdated figures, or, whichever outdated figures land first, some step that wrote has no driver about to skip or fail it |
| `Balance.CurrentWithoutReturn` | go/internal/token/balance.go:121-156 | when every step that wrote has recorded and the account never returned to figures it had, the last recording is the account's balance |
| `Balance.SkippedReturnLeavesStaleBalance` | go/internal/token/balance.go:76-78 | a run where every step recorded and the last recording is stale |
| `Balance.LateFailureLeavesNoBalance` | go/internal/transfer/saga.go:1312-1317 | a run where every step concluded and the account's figures are on no stream |
| `Projection.DeliveredIsPrefix` | ruby/app/consumer/projector.rb:52-85 | for every in-order delivery with rewinds, the row is that of the longest prefix delivered |
| `Projection.TransactionRowIsGosFold` | ruby/app/consumer/event_state_map.rb:24-42 | a Transaction's row state is topLevelState of that prefix, with the reason given by the last event to name a state |
| `Projection.TransferRowIsGosFold` | ruby/app/consumer/event_state_map.rb:47-76 | a Transfer's row state is Go's, a rejected request staying rejected, and its owner is kept |
| `ReadModel.Projector.Apply` | ruby/app/consumer/projector.rb:30-101 | one delivery: refused unmapped or malformed with nothing written, or exactly the guarded write, reporting whether anything changed |
| `ReadModel.Projector.Target` | ruby/app/consumer/projector.rb:52-101 | the row to write, or none exactly when the guard refuses |
| `ReadModel.TransactionTableIsGosFold` | ruby/app/consumer/projector.rb:30-101 | the same, state and reason, through any interleaving with other aggregates' deliveries |
| `ReadModel.TransferTableIsGosFold` | ruby/app/consumer/projector.rb:30-101 | likewise for a Transfer's state and owner |
| `ReadModel.BalanceRowIsHighest` | ruby/app/consumer/balance_projector.rb:41-49 | for any duplicated or reordered delivery the row is the highest sequence delivered |
| `ReadModel.BalanceRowIsNewest` | ruby/app/consumer/balance_projector.rb:26-49 | end to end, the row holds ledger figures read no earlier than any other recording delivered |
| `Consumer.CommittedIsHandled` | go/internal/saga/consumer.go:203-395 | every message below a committed offset was handled, over all halts, drops, failed commits and restarts |
| `Consumer.CommitsNeverGoBack` | go/internal/saga/consumer.go:341-395 | no commit or restart moves a committed offset back |
| `Consumer.RestartMissesNothing` | go/internal/saga/consumer.go:203-395 | a restarted reader stands at or before every unhandled message |
| `Consumer.CommitCatchesUp` | go/internal/saga/consumer.go:311-395 | while nothing has failed, a commit that succeeds once a partition has handed everything over commits all it has got past |
| `Consumer.Drain` | go/internal/saga/consumer.go:341-348 | for each partition that handed anything over, and no other, the largest offset it handed over |
| `Recovery.OneAtATime` | ruby/app/services/ach/recover_due.rb:88-121 | at most one Recovery of an entity is unconcluded, and it is the latest |
| `Recovery.NeverOverCollects` | ruby/app/services/ach/owed.rb:37-103 | completed Recoveries, with what the unconcluded one may still take, never exceed completed debt returns |
| `Recovery.InsertKeeps` | ruby/db/migrations/20260927120200_create_receivable_recoveries.rb:30-30 | an insert that wins the unique sequence keeps both |
| `RecoveryCash.RecoveryIsSized` | ruby/app/services/ach/recover_due.rb:88-121 | over every run, a recorded Recovery is for the smaller of the cash its sweep read as available and the debt it read less the recoveries it read, more than nothing, and carries how far that view of the cash reached |
| `RecoveryCash.RetryHasNewerCash` | ruby/app/services/ach/recover_due.rb:102-108 | every Recovery but the latest completed or was refused, and one that follows a refused one read cleared cash later |
| `RecoveryCash.SweepRecords` | ruby/app/services/ach/recover_due.rb:88-121 | and when one is due, something is owed and some cash is available, a sweep with nobody in the way records just that |
| `EventStore.MemoryStore.AppendAtomic` | go/internal/eventstore/memory.go:34-92 | every live write lands after exactly the events it expected, or none does; accepted if and only if every write holding events names a stream, each its own, and expects the length it has; a refusal names a fault the batch has |
| `EventStore.AcceptedExactly` | go/internal/eventstore/memory.go:34-92 | the same of the specification, for every batch and every store |
| `EventStore.ValidateWrites` | go/internal/eventstore/store.go:131-147 | the first fault of a batch, in order |
| `EventStore.LivePicks` | go/internal/eventstore/store.go:119-127 | what is kept is every write that holds events and no other, each once and in the order given |
| `EventStore.LiveWrites` | go/internal/eventstore/store.go:119-127 | the loop keeps just such a selection: rising positions that miss no write with events |
| `EventStore.AcceptedBatchIsExact` | go/internal/eventstore/memory.go:34-92 | an accepted batch adds exactly its events to the streams it names and touches no other |
| `EventStore.HistoryOnlyGrows` | go/internal/eventstore/memory.go:34-107 | over any batches streams only grow, sequences count from one and no global sequence repeats |
| `EventStore.AcceptedMeansUnchanged` | go/internal/eventstore/memory.go:56-63 | expecting a length is compare-and-swap: an accepted write's stream is what its caller loaded |
| `EventStore.JoinedKeysAreDistinct` | go/internal/eventstore/memory.go:120-124 | joined keys are distinct when types hold no NUL |

## Left out

- TransferFailure.StagedFailureMovesNothing: a sufficient way of driving; `TransferExact.FailedStaysUnmovedExactly` is the exact condition.
- TransferFailure.ImmediateFailureMovesNothing: likewise.
- Balance.CurrentWithoutReturn: a sufficient condition; `BalanceExact.SettlesCurrentExactly` is the exact one.
- BalanceExact.SettlesCurrentExactly: a step displaced by another outcome after it has written, when it has several chains or is a void overtaken by a confirm, is not modelled; one refused before it wrote is.
- RollbackProgress.RollsBackWhole: a child recorded as stuck may still be undone by another run already at work on it, so its two conditions differ while one is; `RollbackExact.RollsBackExactly` is exact when none is.
- Consumer.CommitCatchesUp: after a failure a worker may give up on the last message it handled, which is then redelivered.
- SystemTheorems.RolledBackLeaves: a request of a Transfer and its answer are one step of the system, as they are of the saga.
- IsolationLedger.ReversalFindsExactly: speaks of posted balances; reservations of staged Transfers are not part of them.
- LedgerExact.HistoryKeepsBooksExactly: totals are unbounded integers, so a sum beyond 64 bits is not modelled; account creation is a single opening without its own linked chains.
- Real TigerBeetle, Postgres and Kafka clients; the fake ledger, the memory store and the reader's contract stand for them.
- Reservation timeouts and wall clocks: whether a claim is stale is a free choice, and no reservation is voided by itself.
- Retry limits, backoff, logging, tracing and the reason texts carried by events.
- Bounded retry loops of single RPCs: a caller that gives up is a driver that stops.
- Deriving ids (SHA-256, version 4 UUIDs of section 5.4 of RFC 9562): assumed injective and fresh.
- Destination planning and source minting: each names one derived Token for the full amount.
- `wouldAcceptReadyChildren` is a free choice in `TransactionSaga.Open`; its answer binds nothing later.
- The in-place `Linked` flags of a chain, the shared hand-over channel of the consumer (kept as one queue for each partition) and the store's mutex.
- Holder provisioning, GraphQL, gateways, jobs, the business calendar, securities allocation and the lending simulation.
