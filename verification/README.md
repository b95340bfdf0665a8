# Verification of the durable run kernel

A Dafny model of the kernel that admits, runs, cancels and recovers Runs, with proofs of what it promises under
crashes, expired leases, workers that go on after they were overtaken, lost responses and late effects. Two smaller
parts are modelled with it: the function-call codec with the binder that reads it back, and the generator of
counterbalanced experiments with the validator that recognises them.

## How it is built

* **State.** `Records` holds the tables as one `Store` value (Runs with event log, budget and model calls; Actions with
  attempts and verdicts; jobs; input requests), `Vaults` the tables of the resource store. Every `with
  self._sessions.begin()` block is one atomic transaction, every exception a `Result` that leaves the tables as they
  were, except where the code commits first and raises afterwards (an expired input request, an incompatible checkpoint).
* **Transactions.** `JobTransactions`, `RunTransactions`, `ActionTransactions`, `InputTransactions` and
  `AccountTransactions` specify each one as a function of the store. `RunControllers.RunController` and
  `ResourceStores.ResourceStore` are the classes: they change their fields in place, with the loops of the code, and each
  method is proved to leave exactly the state and result its specification gives.
* **Runs of the kernel.** `Kernel` makes every transaction a labelled step and `Execute` a run over any sequence of them,
  so every theorem over `Execute(EMPTY_STORE, txs)` is about every reachable state and every interleaving of atomic
  transactions. `ActionProtocol` is the automaton of one Action; `Evolution` says what any single transaction may do, and
  `KernelEvolution.StepEvolves` proves it for all 36.
* **Processes.** Where the outside matters, a small system is put around the kernel: workers with a status they looked at
  some time ago (`Wakeups`), gateway calls whose writes arrive late (`LocalEffects`), runners that come back from a charge
  (`ModelTurns`), a downstream that applies requests (`Downstream`), a reader of the event log (`EventLog`). Each process
  may stop for good between any two steps, and a stopped one may go on later. `AdvanceJobs`, `RunWorkers`, `Gateway`,
  `ModelRunner` and `Recoveries` are the corresponding code as methods; the first, third and fourth are proved to do
  nothing but steps of those systems.

Every method of `RunController` has the same form of contract: the new store and result are those of the transaction
specification. Many are straight-line; the table below names only those with a loop or with many branches.

The main results, by module: `LocalEffects`, `FailedEffects` and `RunWorkers` (ledger-backed effects at most once,
receipts sound and complete, when a failure is final), `Downstream` and `Attempts` (no blind redispatch, one key per
idempotent effect), `BudgetTrees`, `TreeSpending` and `SpendingBound` (budgets over trees), `Wakeups` (no lost wake-up),
`Sweeps` (cancellation reaches exactly the subtree), `Fencing`, `ModelTurns`, `Endings`, `Settlements` and `Finality`,
`EventLog`, `FileHistory` and `LateWrites`, `RoundTrips`, `Agreement` and `Factorials`.

## Where the code does less than one might expect

Each point names the condition under which the code does meet the expectation, as an equivalence, and where it does not:
a reachable history, an input, or a continuation from any state that violates the condition.

* `terminate_run` frees a Run's reservations for children even when it ends blocked and the children live on, and a child
  reservation can be settled or released like any other. However a tree is spent from, it stays within its root's limit
  if and only if the limits no longer held back in it add up to nothing (`SpendingBound.SpendingStaysWithinIff`); a
  forced ending (`Overspending.ForcedEndingOverspends`) and a settlement or release by hand
  (`SpendingBound.FreeingByHandOverspends`) break it.
* A cancellation drops an Action that waits for approval but leaves the approval open, so that a late answer can make it
  ready again (`Revival.DroppedActionComesBack`), and `record_action_cancel_receipt` writes a status without looking at
  the one it replaces. With such receipts a settled Action is final if and only if its Run is terminal
  (`Finality.SettledIsFinalIffRunIsOver`); without them, if and only if no approval of it can still be answered
  (`Finality.SettledIsFinalIffUnanswerable`).
* Such a receipt keeps the ledger of attempts in agreement if and only if the Action is not running and no approval is
  left open behind it (`Attempts.ReceiptKeepsLedgerIff`, `Breaks.ReceiptLeavesAttemptStarted`).
* An Action can be recorded as failed because the write of its newest attempt was refused, while the write of an attempt
  that was overtaken is still on its way. It stays without effect if and only if no such write can be carried out any
  more (`FailedEffects.NoEffectIsFinalIff`, `Overtaken.FailedThenCarriedOut`).
* The generic `transition_run` checks children but not effects: a Run it cancels has only settled Actions if and only if
  none was unresolved (`Endings.GenericCancellationSettledIff`, `Breaks.RunCancelledWhileRunning`).
* `decode` replaces slots one after the other, so a workspace spelled like the path's slot is read as another workspace
  (`RoundTrips.SpelledSlotReadsAnotherWorkspace`); what is decoded binds to the same parameters if and only if they are
  faithful (`RoundTrips.DecodeThenBind`).
* A write that was refused for its precondition can be carried out by a late copy after further writes of others if and
  only if it names a tag whose revision is still to come and whose content is within the limit
  (`LateWrites.RefusalIsFinalIff`).
* The event history takes two snapshots; a page silently misses events if and only if everything was trimmed and the
  reader's cursor was not behind the first snapshot (`EventLog.GapIffTrimmedBetweenSnapshots`, `Breaks.PageMissesEvent`).

## Model

| member | source | states |
|---|---|---|
| LocalEffects.LeasedEffectsHappenOnce | src/hnh/application/action_gateway.py:170-176 | under every interleaving of dispatch, lease expiry, takeover, late writes, client writes, cancellation and lost answers, an Action has at most one ledger row under `action:{id}`, made of its bound request, with an artifact behind it; every attempt that was ever answered, reported back or not, and the Action, if it succeeded with an answer, carry that row's status and snapshot |
| LocalEffects.LeasedArtifactIsUnique | src/hnh/application/action_gateway.py:170-176 | and at most one artifact names the Action as its source: the resource of that row |
| LocalEffects.AnswersHaveEffects | src/hnh/application/action_gateway.py:293-341 | no attempt is answered and no Action succeeds with an answer unless the ledger holds its effect |
| FailedEffects.NoEffectIsFinalIff | src/hnh/application/run_controller.py:1266-1333 | a settled Action without a ledger row, say one recorded as failed, stays without effect over every continuation if and only if no write of an attempt is on its way whose precondition holds or may yet come to hold; for Actions whose approval cannot be answered any more, bare cancel receipts aside |
| Overtaken.FailedThenCarriedOut | src/hnh/application/action_gateway.py:293-341 | the condition is needed: a ten-step history in which the newer attempt is refused and the Action recorded as failed, after which the write of the attempt it overtook is carried out |
| LocalEffects.LeasedWriteIsOneRevision | src/hnh/application/resources.py:207-280 | a leased `workspace.file.write` is exactly one revision in its file's history |
| LocalEffects.ReceiptsAreSoundAndComplete | src/hnh/application/run_controller.py:948-1076 | for a running leased write of a cancelling Run under a live cancel lease, reading the receipt succeeds exactly when the store had committed the effect; it then stores the reply the write gave every attempt it ever answered, reported back or not, and would give again; otherwise nothing changes |
| RunWorkers.RunWorker.FinishCancellation | src/hnh/application/run_worker.py:112-141 | the cancel path of a worker: if confirming conflicts, all provable effects and only those are recorded from receipts, and the second try succeeds exactly when every unresolved Action had a receipt and no child is live |
| RunWorkers.RunWorker.ReadReceipts | src/hnh/application/run_worker.py:122-130 | the loop over the running Actions confirms exactly those whose effect the ledger proves, and is cut short only where the Run is not cancelling |
| Gateway.ActionGateway.Execute | src/hnh/application/action_gateway.py:153-191 | one leased execution is a sequence of steps of the interleaved system above; it opens at most one attempt, sends nothing when the Action is settled or its outcome unknown, and its answer is the reply of the store, the stored result or the refusal the state calls for, and what the Action's row then says |
| Gateway.ActionGateway.Send | src/hnh/application/action_gateway.py:266-341 | opening, writing and recording are the three steps, and a new answer means a succeeded Action |
| BudgetTrees.NoRunOverspends | src/hnh/application/run_controller.py:3525-3635 | in every reachable state each Run has used exactly the sum of its settled amounts, and used plus still reserved fits every limit |
| BudgetTrees.SubtreeSpendingBounded | src/hnh/application/run_controller.py:574-671 | in every reachable state a subtree uses at most its root's limit plus the limits of the Runs whose reservation the parent no longer holds |
| BudgetTrees.SubtreeStaysWithinRoot | src/hnh/application/run_controller.py:574-671 | while the parents in a subtree hold their child reservations, the whole subtree stays within the root's limit |
| TreeSpending.TreeStaysWithinRoot | src/hnh/application/run_controller.py:3579-3698 | over any run in which no Run of the subtree was terminated by force and no child reservation in it settled or released by hand, the subtree stays within its root's limit |
| TreeSpending.ChildrenStaySecured | src/hnh/application/run_controller.py:626-646 | a parent holds back every limit of a child from admission on, through every transaction that does not free it |
| Overspending.ForcedEndingOverspends | src/hnh/application/run_controller.py:4229-4242 | the condition is needed: a ten-step history in which `terminate_run` ends blocked beside a live child, and parent and child together spend twice the root's limit |
| SpendingBound.SpendingReachesBound | src/hnh/application/run_controller.py:3525-3635 | the bound on a subtree is attained: from every reachable state reserving and settling alone lead to exactly the root's limit plus the limits that are no longer held back |
| SpendingBound.SpendingStaysWithinIff | src/hnh/application/run_controller.py:3579-3698 | however it is spent from, a subtree stays within its root's limit if and only if those limits add up to nothing |
| SpendingBound.FreeingByHandOverspends | src/hnh/application/run_controller.py:3579-3698 | in any reachable state releasing a held child row by hand, or settling it at nothing, lets the tree pass the parent's limit |
| Attempts.NeverBlindlyResent | src/hnh/application/run_controller.py:1266-1277 | an Action that is neither idempotent nor ledger-backed opens at most one attempt more than it has `confirmed_not_applied` verdicts, in every run, cancel receipts and approvals included |
| Downstream.AppliedAtMostOnce | src/hnh/application/run_controller.py:2998-3061 | with truthful verdicts the outside world applies an Action at most once, whatever is lost, delayed, retried, approved or reconciled |
| Downstream.RetriesShareOneKey | src/hnh/application/recovery.py:31-109 | all attempts of a remote-idempotent Action carry the same key `hnh:{id}` |
| Recoveries.RecoveryCoordinator.Dispatch | src/hnh/application/recovery.py:25-109 | one attempt is opened with the key of the effect class; the Action ends as the driver's answer demands; only an idempotent effect is left for a retry; an error leaves everything as it was or the attempt open |
| Recoveries.RecoveryCoordinator.Begin | src/hnh/application/recovery.py:31-52 | a first attempt of a ready Action, or the next one of an Action that waits under this key; otherwise nothing changes |
| Recoveries.RecoveryCoordinator.Report | src/hnh/application/recovery.py:53-109 | the Action takes the status the decision names and keeps its attempts and their keys; an error changes nothing |
| Wakeups.ActiveRunsAreWoken | src/hnh/application/run_worker.py:145-194 | with any number of workers stopping anywhere, zombies included, every queued or running Run has an unfinished advance job that no live worker is about to complete on a stale observation |
| AdvanceJobs.AdvanceWorker.RunOnce | src/hnh/application/run_worker.py:64-75 | one pass of a worker over an advance job is a sequence of steps of the system of workers; it comes back empty only if no advance job is claimable |
| AdvanceJobs.AdvanceWorker.Advance | src/hnh/application/run_worker.py:145-186 | the job is completed only if the Run was not running when the worker last looked, otherwise handed back; under a live claim and without an error of the turn it always comes through, completing exactly the jobs of Runs that were not active |
| AdvanceJobs.AdvanceWorker.Leave | src/hnh/application/run_worker.py:145-186 | an unavailable provider defers the job, a finished turn completes it exactly if the Run is not running any more |
| AdvanceJobs.AdvanceWorker.GiveUp | src/hnh/application/run_worker.py:151-181 | an exhausted or broken turn ends or blocks the Run before the job is handed back |
| AdvanceJobs.AdvanceWorker.Finish | src/hnh/application/run_worker.py:188-194 | completing marks the job done, deferring makes it ready again, an error changes nothing |
| Wakeups.CompletionKeeps | src/hnh/application/run_controller.py:1180-1193 | completing a job strands no active Run, when the worker decided so on a status that was true since its claim |
| ModelTurns.ClosedCallsAreCharged | src/hnh/application/runner.py:395-430 | however often turns are cut off and rerun, model calls closed as processed or invalid are at most the model turns used, hence at most the limit |
| ModelRunner.Runner.SettleModelUsage | src/hnh/application/runner.py:395-430 | settling the usage of a turn is a sequence of steps of the system of runners and leaves the turn charged under its key |
| ModelRunner.Runner.ProcessOperations | src/hnh/application/runner.py:305-347 | the loop over the operations keeps the turn and every tool call so far charged under its key, closes the call only when all are, and stops early only where the lease is lost or the kernel refuses the next step; it takes only steps of the system |
| ModelTurns.ToolCallsAreChargedOnce | src/hnh/application/runner.py:305-346 | each tool call of a turn has at most one row, spending at most one call |
| ModelTurns.SlotsHoldOneAction | src/hnh/application/run_controller.py:1489-1545 | each (run, turn, index) slot holds at most one Action, whatever is rerun |
| Sweeps.CancellationReachesExactlyTheSubtree | src/hnh/application/run_controller.py:800-907 | a first cancellation leaves the whole subtree over or cancelling; each newly cancelling Run gets one event, one cancel job and loses all undispatched Actions; nothing outside changes |
| Sweeps.CancellationNeverMeetsTheTable | src/hnh/application/run_controller.py:803-807 | the sweep never fails on the transition table |
| Sweeps.WholeListReachesSubtree | src/hnh/application/run_controller.py:846-861 | one pass over the list ordered by depth reaches exactly the live Runs of the subtree |
| Sweeps.ParentReachedIffBelow | src/hnh/application/run_controller.py:858-860 | when the pass comes to a Run, its parent is in `pending` exactly if the Run hangs below the root |
| Fencing.OvertakenClaimIsFenced | src/hnh/application/run_controller.py:1120-1212 | once a later claim of a job is taken, an older one is never live again, no transaction made under it changes the store, and epochs keep growing, for ever |
| Fencing.LapsedClaimIsFenced | src/hnh/application/run_controller.py:4443-4534 | a lapsed lease is lost for good even when nobody else takes the job |
| Fencing.UnheldClaimChangesNothing | src/hnh/application/run_controller.py:4459-4534 | a transaction under a claim that is not live changes nothing, for every transaction that takes a claim |
| Fencing.ClaimTakesNextEpoch | src/hnh/application/run_controller.py:1128-1155 | a claim takes the next epoch and is the only (worker, epoch) that passes the lease check; all earlier ones become stale |
| Fencing.StaleForever | src/hnh/application/run_controller.py:4443-4456 | a stale claim stays stale through every run of the kernel |
| Attempts.LedgersAlwaysAgree | src/hnh/application/run_controller.py:4321-4336 | without bare cancel receipts, in every reachable state an Action runs exactly while its newest attempt is started, no older one is, attempts are numbered 1..n, and an unknown outcome is the newest attempt's |
| Attempts.ReceiptKeepsLedgerIff | src/hnh/application/run_controller.py:2929-2933 | a bare cancel receipt keeps that agreement exactly when the Action is not running and leaves no open approval behind a non-cancelled Action |
| Breaks.ReceiptLeavesAttemptStarted | src/hnh/application/run_controller.py:2929-2933 | the condition is needed: a history after which a receipt closes an Action and leaves its newest attempt started |
| ActionProtocol.LedgerStep | src/hnh/application/run_controller.py:1266-1333 | every other move on an Action keeps the agreement |
| Settlements.SettledStaysIff | src/hnh/application/run_controller.py:1937-1945 | of the automaton of one Action, bare cancel receipts aside: a settled Action stays as it is under every enabled move exactly while no approval of it is open |
| Settlements.SettlementsAreFinal | src/hnh/application/run_controller.py:1586-1604 | over all later runs without bare cancel receipts, a settled Action without an open approval never changes again |
| Finality.SettledIsFinalIffRunIsOver | src/hnh/application/run_controller.py:2929-2933 | on the whole kernel, bare cancel receipts included: the row of a settled Action stays as it is over every continuation if and only if its Run is terminal |
| Finality.SettledIsFinalIffUnanswerable | src/hnh/application/run_controller.py:1811-1945 | without bare cancel receipts: if and only if it has no open approval that is unexpired, fits the request and belongs to a Run that is not over |
| Revival.DroppedActionComesBack | src/hnh/application/run_controller.py:1937-1945 | the condition is needed: a twelve-step history in which a cancellation drops an Action and its approval, still open, makes it ready again |
| RoundTrips.DecodeThenBind | src/hnh/adapters/models/function_tools.py:46-107 | whatever `decode` accepts for a built-in capability binds to that capability with exactly the same parameters if and only if the file path is canonical and the workspace does not spell the path's slot; no other capability answers to that method and target |
| RoundTrips.SpelledSlotReadsAnotherWorkspace | src/hnh/adapters/models/function_tools.py:69-77 | the condition is needed: a workspace named like the slot `{file_path}` is bound as another workspace |
| FileHistory.HistoryIsLinear | src/hnh/application/resources.py:227-280 | over any interleaving of writers and replays, revisions are 1..n without gap, each overwrite named the tag of the revision just before, and no tag recurs |
| FileHistory.RowsAreRevisions | src/hnh/application/resources.py:262-280 | acknowledged file writes and revisions correspond one to one |
| Ledgers.ReplayReturnsOriginal | src/hnh/application/resources.py:400-446 | a committed write is answered with its first reply for ever and changes nothing; the same key with another request is refused |
| LateWrites.CanStillCommitIff | src/hnh/application/resources.py:203-246 | a write under an unused key is carried out after some writes of others if and only if it is well-formed and its precondition holds now or names the tag of a revision still to come |
| LateWrites.RefusalIsFinalIff | src/hnh/application/resources.py:235-246 | a write refused for its precondition stays refused whatever others write if and only if it names no tag with a revision above the current one and content within the size limit |
| LateWrites.Climb | src/hnh/application/resources.py:235-262 | others can bring a file to any later revision, with any content, without using the key of the late write |
| Endings.TreesEndTogether | src/hnh/application/run_controller.py:4357-4366 | in every reachable state the subtree of a terminal Run is terminal |
| Endings.EndingsAreFinal | src/hnh/domain/states.py:43-60 | a terminal Run never changes its status |
| Endings.CancelledRunsAreSettled | src/hnh/application/run_controller.py:909-946 | without the generic transition, a cancelled Run has only succeeded, failed or cancelled Actions in every later state |
| Endings.GenericCancellationSettledIff | src/hnh/application/run_controller.py:1078-1118 | the generic transition keeps that exactly when the Run has no unresolved Action |
| Breaks.RunCancelledWhileRunning | src/hnh/application/run_controller.py:1078-1118 | the condition is needed: a history in which the generic transition cancels a Run whose Action is still running |
| Endings.TerminationTellsFailureFromDoubt | src/hnh/application/run_controller.py:4197-4269 | a forced ending frees all reservations and fails the Run exactly when no effect is in doubt, else blocks it; Actions of other Runs are untouched |
| EventLog.EveryLogIsComplete | src/hnh/application/run_controller.py:4407-4427 | in every reachable state a Run's events carry exactly the numbers 1 to `event_seq` |
| EventLog.HistoryIsNextPage | src/hnh/application/run_controller.py:4011-4049 | a page holds the next events in order without a gap, as many as fit; it errs exactly when the cursor is before what retention left or ahead of the log |
| EventLog.ReaderSeesEachEventOnce | src/hnh/application/run_controller.py:4011-4049 | with appends, retention and reads interleaved, a reader has received each later event once and in order |
| EventLog.Reading | src/hnh/application/run_controller.py:4011-4049 | every interleaving keeps the reader consistent: the log holds the last events written, and what it got is what was written up to its cursor |
| EventLog.GapIffTrimmedBetweenSnapshots | src/hnh/application/run_controller.py:4020-4036 | the one way a successful read can miss events: everything was trimmed between its two snapshots |
| Breaks.PageMissesEvent | src/hnh/application/run_controller.py:4020-4036 | it happens: a reachable reader gets an empty last page although an event after its cursor was written |
| Designs.CompleteIsFullFactorial | src/hnh/evaluation.py:642-683 | a complete design has for every case index and position exactly one row, in the rotated condition |
| Designs.ConsecutiveCasesCover | src/hnh/evaluation.py:672-683 | among any m consecutive cases every condition stands at every position |
| Designs.ConsecutiveCasesDoNotRepeat | src/hnh/evaluation.py:672-683 | and stands there once |
| Agreement.ExperimentsAreComplete | src/hnh/evaluation.py:188-260 | whatever the executor answers, the rows of a finished experiment are judged a complete four-arm design |
| Agreement.AblationsAreComplete | src/hnh/evaluation.py:281-352 | the same for an ablation |
| Factorials.CompleteHasAllRows | src/hnh/evaluation.py:631-683 | a complete design with m conditions has exactly m rows per case |
| Factorials.JudgedCompleteIsFactorial | src/hnh/evaluation.py:619-693 | rows judged a complete four-arm design are a full factorial: four rows per case, all within case indices 0..n-1 and positions 0..3, exactly one for each place, in the arm the rotation puts there |
| Factorials.JudgedCompleteIsBalanced | src/hnh/evaluation.py:672-683 | among any four consecutive cases each arm stands at each position exactly once |
| Factorials.JudgedAblationIsFactorial | src/hnh/evaluation.py:694-783 | rows judged a complete ablation are about one feature: two rows per case, no others, exactly one for each place, off and on in the order seed and case give |
| Factorials.JudgedAblationIsBalanced | src/hnh/evaluation.py:751-763 | of any two consecutive cases one starts with the feature off, the other with it on |
| KernelEvolution.StepEvolves | src/hnh/application/run_controller.py:370-4545 | every transaction moves Runs along the table, Actions by one enabled move, jobs by the lease rules, keeps logs and budgets sound and references resolved; all but the generic transition and job completion also keep wake-ups and settled cancellations |
| KernelEvolution.ReachableSound | src/hnh/adapters/postgres/models.py:88-241 | in every reachable state every stored reference resolves, both ways where the code relies on it |
| RunAccounts.StepAccounts | src/hnh/application/run_controller.py:3525-3698 | a Run's account moves only by its own reservations, its forced ending and its children's admission; its model calls only by their own transactions |
| States.TerminalIffNoSuccessor | src/hnh/domain/states.py:20-55 | a Run status is terminal exactly if the table offers no way out |
| Budgets.ReserveEvolves | src/hnh/application/run_controller.py:3525-3577 | reserving keeps the account sound: used is what was settled, used plus reserved fits, keys are unique |
| Budgets.SettleEvolves | src/hnh/application/run_controller.py:3579-3635 | settling does, and changes one held row |
| Budgets.ReleaseEvolves | src/hnh/application/run_controller.py:3668-3698 | releasing does |
| Budgets.ReleaseAllEvolves | src/hnh/application/run_controller.py:4229-4238 | releasing everything does, and leaves nothing reserved |
| RunControllers.RunController.ClaimJob | src/hnh/application/run_controller.py:1120-1155 | the new store and result are those of the transaction specification: the claimable job first by due time and identifier gets the next epoch; nothing is claimed only if nothing is claimable |
| RunControllers.RunController.RequestCancellation | src/hnh/application/run_controller.py:744-907 | the new store and result are those of the transaction specification: the loop over descendants ordered by depth stops exactly the subtree, or nothing changes |
| RunControllers.RunController.Sweep | src/hnh/application/run_controller.py:844-905 | after each descendant exactly the reached live Runs are stopped |
| RunControllers.RunController.ChildRuns | src/hnh/application/run_controller.py:847-856 | the owner's Runs with a parent, each once, by depth |
| RunControllers.RunController.FinalizeCancellation | src/hnh/application/run_controller.py:909-946 | the new store and result are those of the transaction specification: confirmed only with all Actions settled and no live child |
| RunControllers.RunController.AdmitChild | src/hnh/application/run_controller.py:504-700 | the new store and result are those of the transaction specification: a child within depth, fan-out and all budget dimensions of its parent, which holds its limits back |
| RunControllers.RunController.Reserved | src/hnh/application/run_controller.py:3554-3562 | the loop sums exactly the rows still reserved in the dimension |
| RunControllers.RunController.HoldBack | src/hnh/application/run_controller.py:626-646 | the loop adds one reserved row per limited dimension |
| RunControllers.RunController.TerminateRun | src/hnh/application/run_controller.py:4197-4269 | the new store and result are those of the transaction specification: drops what was not sent, frees all reservations, fails or blocks |
| RunControllers.RunController.FreeRows | src/hnh/application/run_controller.py:4229-4238 | the loop frees exactly the reserved rows |
| RunControllers.RunController.AdmitAction | src/hnh/application/run_controller.py:1459-1545 | the new store and result are those of the transaction specification: one Action per slot; a replay needs the same fingerprint, capability and revision |
| RunControllers.RunController.BeginDispatch | src/hnh/application/run_controller.py:1229-1347 | the new store and result are those of the transaction specification: a ready Action is opened; a running ledger-backed one is taken over by a newer lease under the same key |
| RunControllers.RunController.ReconcileAction | src/hnh/application/run_controller.py:2960-3091 | the new store and result are those of the transaction specification: a verdict settles or readies the Action, wakes a blocked Run, may confirm a cancellation; replays need the same verdict |
| RunControllers.RunController.ReconcileLocal | src/hnh/application/run_controller.py:948-1076 | the new store and result are those of the transaction specification: closes the Action exactly when its receipt passes every check |
| RunControllers.RunController.Respond | src/hnh/application/run_controller.py:1811-1980 | the new store and result are those of the transaction specification: the answer is recorded once, moves Action and Run and wakes the Run; an expired request is closed although the caller gets an error |
| RunControllers.RunController.ReserveBudget | src/hnh/application/run_controller.py:3525-3577 | the new store and result are those of the transaction specification: idempotent per key, refused beyond the limit |
| ResourceStores.ResourceStore.CreateArtifact | src/hnh/application/resources.py:105-152 | the new store and result are those of the transaction specification: one artifact and one ledger row, or a replay, or an error that changes nothing |
| ResourceStores.ResourceStore.WriteFile | src/hnh/application/resources.py:188-280 | the new store and result are those of the transaction specification: one revision under exactly one precondition (sections 13.1.1 and 13.1.2 of RFC 9110), or a replay, or an error that changes nothing |
| ResourceStores.ResourceStore.Replay | src/hnh/application/resources.py:400-420 | the row of the key if the request is the same, a conflict if it is not |
| Ledgers.ReplayAnswersFromLedger | src/hnh/application/resources.py:120-134 | a request the ledger has is answered from its row and changes nothing |
| Paths.NormalizeKeepsOrRefuses | src/hnh/application/resources.py:40-49 | for a path already in Unicode normal form C: normalizing accepts it as it is or refuses it; the code also rewrites other text to that form first |
| Codec.Decode | src/hnh/adapters/models/function_tools.py:64-107 | the loop over the fields of the template prints the operation of the specification, or refuses the arguments |
| Json.RequireDepth | src/hnh/application/operations.py:94-103 | the worklist refuses a value exactly when it is nested deeper than allowed |
| Templates.MatchPrintsBack | src/hnh/application/capabilities.py:377-390 | whatever a two-field template reads from a target prints back to that target |
| Templates.ReplaceStaysIff | src/hnh/adapters/models/function_tools.py:77-77 | replacing a slot leaves a text alone exactly if the slot does not occur in it or is replaced by itself |
| RoundTrips.FileReadRoundTripIff | src/hnh/application/action_gateway.py:463-515 | the round trip of file reads, exactly when |
| RoundTrips.FileWriteRoundTripIff | src/hnh/application/action_gateway.py:463-515 | the round trip of file writes with their one precondition, exactly when |
| RoundTrips.PythonRoundTrip | src/hnh/application/action_gateway.py:463-515 | path field and text body come back together |
| RoundTrips.ArtifactCreateRoundTrip | src/hnh/application/action_gateway.py:463-515 | a JSON body comes back whole |
| Evaluation.ExperimentRunner.Run | src/hnh/evaluation.py:180-260 | row n is case n/4 at position n%4, in the arm of the rotated order, whatever the executor answers |
| Evaluation.AblationRunner.Run | src/hnh/evaluation.py:270-352 | row n is case n/2 at position n%2, off and on in the order the seed gives |
| DesignChecks.CheckDesign | src/hnh/evaluation.py:619-683 | grouping rows by case and counting arms case by case accepts exactly the complete designs |
| DesignChecks.CheckArms | src/hnh/evaluation.py:631-635 | the counters of one case are all one exactly if every arm occurs once |
| Summaries.Summarize | src/hnh/evaluation.py:555-782 | raw rows are refused, or judged complete or not, exactly as the declarative judgement says |
| Summaries.RotationIsComplete | src/hnh/evaluation.py:200-206 | the rotation a runner writes is what the validator recognises, for any number of conditions |
| Summaries.RotatedArm | src/hnh/evaluation.py:201-203 | the k-th arm of the rotated order is the one the validator computes by residue |

## Left out

- LocalEffects.LeasedEffectsHappenOnce: keys of direct clients never begin with `action:`, and leased outcomes are recorded only by the gateway that got them; both are assumed of the steps beside the workers.
- LocalEffects.LeasedArtifactIsUnique: writes of direct clients that name the Action as the source of their artifacts are excluded by hypothesis.
- FailedEffects.NoEffectIsFinalIff: Actions whose approval can still be answered, and bare cancel receipts, are excluded by hypothesis; either can make the Action itself go on.
- Settlements.SettlementsAreFinal: runs with bare cancel receipts are excluded; `Finality.SettledIsFinalIffRunIsOver` covers them.
- Downstream.AppliedAtMostOnce: assumes truthful verdicts, one request per attempt, no bare cancel receipts, and idempotent effects dispatched only through the recovery coordinator.
- Wakeups.ActiveRunsAreWoken: advance jobs are completed only by workers and the generic transition is not used; either could strand a Run.
- ModelTurns.ClosedCallsAreCharged: reservations under the keys of turns and tool calls are assumed to be made and settled as the loop does, and calls closed only by a runner that has settled the turn.
- ModelTurns.ToolCallsAreChargedOnce: tool keys name turn and index; the code names the model call and index, and a turn has one call.
- Attempts.LedgersAlwaysAgree: runs with `record_action_cancel_receipt` are excluded; `ReceiptKeepsLedgerIff` says when they need not be.
- Endings.CancelledRunsAreSettled: runs with the generic transition are excluded; `GenericCancellationSettledIff` says when they need not be.
- AdvanceJobs.AdvanceWorker.Advance: the runner's own transactions are other steps of the system; the method takes the way the turn came out as a parameter, and the heartbeat thread is a `RenewLease` step of the environment.
- AdvanceJobs.AdvanceWorker.RunOnce: only advance jobs; cancel jobs are `RunWorkers.RunWorker.FinishCancellation`, polls of MCP tasks are not modelled.
- Gateway.ActionGateway.Send: only the local write route of a dispatch; the handlers of other capabilities are not part of it.
- Gateway.ActionGateway.Execute: only the leased path of ledger-backed writes; approvals, implicit Runs, MCP and read-only calls are not part of it, and equal fingerprints are assumed to come from equal requests.
- ModelRunner.Runner.ProcessOperations: what the gateway does for each operation is other steps of the system; the loop takes from a parameter where the lease was lost.
- RunWorkers.RunWorker.ReadReceipts: the order in which the running Actions are taken is not modelled; no result depends on it.
- RunControllers.RunController.RequestCancellation: the identifiers drawn for cancel jobs are a parameter; a clash fails the whole transaction.
- RunControllers.RunController.RecoverCheckpoint: whether the newest checkpoint is compatible is a parameter; contents of checkpoints are not modelled.
- RunControllers.RunController.RecordCompletion: whether the candidate was verified is a parameter; the completion gate reads evidence in another transaction.
- RunControllers.RunController.Respond: the policy revision is not compared; a Run fixes it at admission and its Actions and requests copy it, so that they cannot differ.
- Paths.NormalizeKeepsOrRefuses: text that is not in Unicode normal form C, which the code rewrites, is not modelled.
- Summaries.Summarize: rows of task suites, metrics, percentiles and the texts of issues are not modelled, only readability, the kind of design and its completeness.
- Evaluation.ExperimentRunner.Run: redaction is the identity on the fields the validator reads; output file, timing, tokens and the check for mutated controls are not modelled; an executor's exception is one more answer.
- SQL, row locks, skipped locks, advisory locks and isolation levels: transactions are atomic and serial, and there is one clock.
- SHA-256, canonical JSON, base64 and UUIDs: digests are injective constructors, fingerprints numbers, new identifiers parameters whose clash fails the transaction.
- Printed keys (`action:{id}`, `hnh:{id}`, `model:{turn}:turn`, `child:{run}:{dimension}`) are constructors instead of text, and deduplication keys of jobs are not modelled.
- Header and media-type text is taken as already trimmed and in lower case.
- MCP continuations and tasks, execution sessions, skills, context snapshots, attempts of model calls, blobs and their collection, artifact and file reads.
- Scopes, policies, egress and credentials: an owner is a tenant and a subject, and catalog access is a set of granted capabilities.
- Catalog pages and cursors, OpenAPI output, JSON Schema beyond what the nine built-in capabilities use.
- Runs that are terminal for `expired`: the table has the status, no transaction of the model sets it but the generic one.
- Liveness: nothing says that a claimable job is ever claimed or an open request ever answered.
- HTTP routes, streaming, tracing, configuration, command-line demos, backup and migrations: none of them changes the tables in a way of its own.
