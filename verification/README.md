# Verification of the HelpMi money protocol

HelpMi is a marketplace for small jobs. A poster funds a task through an escrow, or pays a
posting fee for a cash task; a doer accepts it, works and completes it; the poster confirms,
or an hourly job releases the escrow after 24 hours; the doer is paid out. A cancel, an admin
or a dispute may send the money back instead. Several services move the same database rows,
with snapshots that may be stale by the time they write. This project models those services
in Dafny and proves what no interleaving of them can bring about, what each of them does when
it is not interfered with, and where the guarantees end. Two smaller parts are modelled beside
it: the one-time login codes and the storage keys of uploaded documents.

`dafny verify dfyconfig.toml` checks the whole project (Dafny 4.11).

## How it is arranged

- `Fees`, `Orders`: the fee split in whole cents with floating-point error, and the order ids.
- `Rows`: the rows that belong to one task, kept together in a `Case`, and one function for
  each statement or transaction of the services. `Handlers`: every request as a step machine
  whose program points carry what the handler has read so far.
- `Invariants`, `World`: all tasks and any number of handlers in flight, interleaved statement
  by statement, with crashes at any point, scheduled scans that work from stale lists, a clock
  and profile reviews. The invariant says of every handler what its snapshot still implies; it
  is proved by rely and guarantee, one statement at a time.
- `Safety`, `History`, `Ledger`: the results about whole runs. Counting results are stated over
  the steps of the run. `Ledger` is about the runs without disputes and admin refunds.
- `Races`, `Limits`, `Finality`: runs that show where guarantees end, and the exact conditions
  under which they do. `Finality` says of a reachable world which facts last in every world
  that can follow it, and from which worlds money can still get back.
- `Serial`, `Points`, `Requests`, `Sweeps`, `Backend`: the same handlers running alone. `Backend`
  has a class with the tables as fields and the services as methods that change them statement
  by statement. Each method leaves exactly what its step machine leaves when it runs alone;
  `Requests` says of every request, in columns, literals and events alone, when it is taken and
  what that is; and `Valid` says that the tables are those of a reachable world, so all results above hold after
  any sequence of calls, together with those that need the absence of interleaving.
- `RowLocks`: why a transaction may count as one step. Fundings and cancels are interleaved
  statement by statement under row locks and re-checked WHERE clauses. `LockOrder`: the same
  locks with releases, disputes and resolutions. `Deadlocks`: which of them deadlock, started
  from the rows and the handlers of a reachable world.
- `Otp`, `Guessing`, `StorageKeys`: the two smaller parts.

## Main results

- Every run of the interleaved system, with stale blind writes, disputes, admin actions and
  crashes: no cancelled task has held money (`Safety.NoCancelledHeld`); HELD is entered and left
  at most once (`Safety.HeldIsOneShot`); at most one refund reaches the provider successfully,
  by one executor at a time (`Safety.RefundsOnce`, `Safety.OneExecutor`); at most one payout
  follows a release, which rests on the doer's completion and on the poster's confirmation or 24
  hours (`Safety.PaysOutOnce`, `History.ReleaseProvenance`); job counters equal releases
  (`Safety.JobsAreReleases`); one assignment, to an eligible doer (`History.AssignedOnce`,
  `History.AssigneeWasEligible`); replayed notifications are harmless (`History.ReplayIsHarmless`).
- Runs without disputes and admin refunds: a payout or a refund, never both
  (`Ledger.PaidOrRefunded`), and balanced books over any number of tasks (`Ledger.BooksBalance`).
- Handlers that run alone, disputes and admin refunds included: for every request, from any
  rows, its exact condition, all errors, every column and every event (`Requests.AcceptAssigns`
  and its neighbours, `Backend.Services`); never both
  (`Serial.ServeAtomic`, `Backend.Services`), and sweeps converge (`Sweeps.SweepConverges`,
  `Backend.Services.SweepHourly`).
- What lasts and what is still possible, as equivalences over everything that can follow a
  reachable world (`Finality.CancelledIsFinalExactly`, `Finality.ReleasedIsFinalExactly`,
  `Finality.RefundIsPossibleExactly`).
- Statements under row locks: fundings and cancels never deadlock (`RowLocks.NeverDeadlocks`),
  and are serializable exactly when no escrow is pending on a task that can still be cancelled
  after opening (`RowLocks.SerializableExactly`); with the other transactions, the pairs that
  can deadlock are exactly known (`Deadlocks.CanCrossExactly`).
- Fee split within a cent under any floating-point error (`Fees.SplitBound`); a bound on code
  guesses over whole runs, which is reached (`Otp.GuessBound`, `Guessing.BoundIsReached`);
  private storage keys (`StorageKeys.MintedMatches`).

## Where the code and its comments differ

The model follows the code.

- The header of `backend/src/payments/refund.service.ts` (lines 20-26) says that all callers
  may run concurrently without double-moving money. An admin refund that interleaves with a
  release does: the claim at lines 71-74 does not inspect its count
  (`Races.AdminRefundRacesRelease`). A refund row always has a claim before it, and in all runs
  the task of a refund row was also released to its doer exactly when a claim found the escrow
  carrying a doer (`Limits.RefundFollowsClaim`, `Limits.MovedTwiceExactly`). Without
  disputes and admin refunds the statement holds (`Ledger.PaidOrRefunded`), and with them it
  holds when handlers do not interleave (`Serial.ServeAtomic`).
- The same header says that an escrow is REFUNDED only after the provider confirmed. A dispute
  resolved for the poster also writes REFUNDED, with no provider call
  (`Races.RefundedOnPaper`; exactly then: `History.RefundedOnPaperExactly`). In the same way a
  dispute resolved for the doer writes RELEASED, with no release and no payout
  (`Races.ReleasedOnPaper`, `History.ReleasedEnteredExactly`).
- The "no captured payment" check at lines 64-67 of the same file looks dead, since only
  captured money can await a refund. It is not: a notification that carries no `payment_id`
  captures the money all the same (`backend/src/payments/payments.service.ts`, lines 131-196).
  The id is set exactly when the notification that captured the money carried one
  (`History.PaymentIsWhatWasCaptured`); without it the money can never be refunded through the
  provider (`Races.UnidentifiedPayment`, `Finality.UnidentifiedIsLost`), and sweeps leave it
  waiting (`Sweeps.SweepConverges`).
- A cancelled task is meant to be terminal. A start, completion or dispute that checked the
  task before the cancel writes without a guard afterwards (`Races.StaleStartRevivesTask`,
  `Finality.CancelledIsFinalExactly`). The money is safe all the same (`Safety.NoCancelledHeld`,
  `History.CancelIsFinalForMoney`).
- A refund whose executor crashed after its claim is never retried (`Races.CrashAfterClaim`,
  `Races.StuckForever`, `Finality.ProcessingIsFinalExactly`);
  sweep convergence therefore asks that no refund was left in PROCESSING.
- The last write of payout creation can undo a concurrent `markPaid`
  (`Races.CreationOverwritesPaid`, `Finality.PaidIsFinalExactly`).
- RELEASED is not final: a participant may dispute a completed task after its release
  (`Races.DisputeReopensReleased`, `Finality.ReleasedIsFinalExactly`).
- "Exactly one payout per release" holds as at most one; a handler that dies in between leaves
  the doer without (`Races.ReleaseWithoutPayout`, `Finality.UnpaidIsFinalExactly`).
- The lock order is task before escrow for fundings and cancels, as their comments say, and for
  disputes; releases and resolutions take the task row last. A confirmed release can deadlock
  with a cancel or a dispute of its task. A resolution takes the rows in the same order but
  cannot deadlock with fundings and cancels, because disputed money is neither pending nor
  held. The insert of a second dispute fails; if the database makes it wait first for a
  resolution that is changing the row with its key, as PostgreSQL does, these two can deadlock
  as well, and nothing else can (`LockOrder.OnlyCrossedDeadlock`, `Deadlocks.CanCrossExactly`).
- The defensive branch of the funding transaction would break serializability if it ever
  wrote (`RowLocks.SerializableExactly`); it never does (`History.FundingGate`,
  `RowLocks.ReachableIsUnexposed`).

## Model

| member | source | states |
|---|---|---|
| `Fees.ToFixedIsNearest` | backend/src/tasks/tasks.service.ts:69-72 | `toFixed(2)` yields the cent nearest to the product, the larger one on a tie, and no other (section 21.1.3.3 of ECMA-262) |
| `Fees.RoundTwentieths` | backend/src/tasks/tasks.service.ts:69-72 | Whatever the floating-point error below 1/20 cent, a fee of n/20 cents rounds to its nearest cent, or to one of its two neighbours when it lies exactly between them |
| `Fees.SplitShares` | backend/src/tasks/tasks.service.ts:68-72 | Every amount is a nearest cent to its own share of the budget: 5% for the poster fee and, to the same cent, the reserve; 15% for the doer fee; 85% for the payout |
| `Fees.SharesAddUp` | backend/src/tasks/tasks.service.ts:70-72 | 15% and 85% of a budget, each rounded to a nearest cent, add up to it, or miss it by a cent when b mod 20 is 10 |
| `Fees.SplitBound` | backend/src/tasks/tasks.service.ts:62-75 | Doer fee plus net payout is the budget unless b mod 20 is 10, and is within one cent of it otherwise; charge minus payout minus reserve is the doer fee within the same bound; the payout never exceeds the budget, nor that the charge |
| `Fees.AddsUpExactly` | backend/src/tasks/tasks.service.ts:69-72 | Every possible split of a budget adds up to it exactly when b mod 20 is not 10 |
| `Fees.SplitCanMissByOne` | backend/src/tasks/tasks.service.ts:69-72 | A budget of 500.10 is one that misses, by a cent |
| `Orders.UpperInjective` | backend/src/payments/payments.service.ts:60 | Upper-casing loses nothing of a lower-case UUID |
| `Orders.UpperIs` | backend/src/payments/payments.service.ts:60 | The upper-cased text has the capital of each letter in its place and all else as it was |
| `Orders.OrdersRoute` | backend/src/payments/payments.service.ts:60-68 | Two order ids of one family are equal exactly for one task, and an `HM-` id never equals an `HMF-` id |
| `Invariants.InsertMoneyRowKeeps` | backend/src/tasks/tasks.service.ts:62-81 | Inserting the escrow or posting-fee row keeps the row invariant and the promises to other handlers |
| `Invariants.SetEscrowOrderKeeps` | backend/src/payments/payments.service.ts:62 | Storing the escrow order id keeps them, even after the escrow has moved on |
| `Invariants.SetFeeOrderKeeps` | backend/src/payments/payments.service.ts:70 | Storing the fee order id keeps them |
| `Invariants.ApplyEscrowPaymentKeeps` | backend/src/payments/payments.service.ts:173-208 | The funding transaction keeps them, and its handler is the only one that may announce |
| `Invariants.ApplyFeePaymentKeeps` | backend/src/payments/payments.service.ts:241-272 | The fee transaction keeps them, and its handler is the only one that may announce |
| `Invariants.EmitPostedKeeps` | backend/src/payments/payments.service.ts:283-296 | Announcing a task keeps them when it is the first announcement |
| `Invariants.AssignDoerKeeps` | backend/src/tasks/tasks.service.ts:205-211 | The assignment keeps them; a match makes its handler the only one that may emit TASK_ACCEPTED |
| `Invariants.EmitAcceptedKeeps` | backend/src/tasks/tasks.service.ts:219-224 | Emitting TASK_ACCEPTED keeps them for that handler |
| `Invariants.WriteStartedKeeps` | backend/src/tasks/tasks.service.ts:234-237 | The unguarded start write keeps them, whatever the status has become |
| `Invariants.WriteCompletedKeeps` | backend/src/tasks/tasks.service.ts:245-252 | The unguarded completion write keeps them, whatever the status has become |
| `Invariants.WriteConfirmedKeeps` | backend/src/tasks/tasks.service.ts:287-290 | The confirmation stamp of a cash task keeps them |
| `Invariants.ReleaseHeldKeeps` | backend/src/tasks/tasks.service.ts:305-332 | The release transaction keeps them; a match makes its handler the only one that may pay out |
| `Invariants.InsertPayoutKeeps` | backend/src/payments/payout.service.ts:45-61 | Creating the payout keeps them when it carries what the doer earned |
| `Invariants.DispatchPayoutKeeps` | backend/src/payments/payout.service.ts:63-68 | Dispatching keeps them once per release |
| `Invariants.SetPayoutKeeps` | backend/src/payments/payout.service.ts:70-78 | Writing a payout status keeps them, whichever handler wrote last |
| `Invariants.EmitReleasedKeeps` | backend/src/tasks/tasks.service.ts:355-360 | PAYMENT_RELEASED keeps them once per release |
| `Invariants.CancelTaskKeeps` | backend/src/tasks/tasks.service.ts:400-416 | The cancel transaction keeps them, a lost race included |
| `Invariants.ClaimEscrowKeeps` | backend/src/payments/refund.service.ts:71-74 | The claim keeps them whether it matches or not, and afterwards the money can never be HELD again |
| `Invariants.InsertRefundKeeps` | backend/src/payments/refund.service.ts:76-97 | Creating the refund row keeps them, a duplicate included |
| `Invariants.ClaimRefundKeeps` | backend/src/payments/refund.service.ts:126-132 | A matching claim makes its handler the sole executor, with one more attempt than calls and no success so far |
| `Invariants.CallProviderKeeps` | backend/src/payments/refund.service.ts:134-137 | The provider call keeps them for the executor |
| `Invariants.FinishRefundKeeps` | backend/src/payments/refund.service.ts:139-154 | Recording a success keeps them for an executor whose call succeeded |
| `Invariants.FailRefundKeeps` | backend/src/payments/refund.service.ts:159-162 | Recording a failure keeps them for an executor whose call failed |
| `Invariants.RaiseDisputeKeeps` | backend/src/tasks/tasks.service.ts:457-463 | The unguarded dispute transaction keeps them, a second dispute included |
| `Invariants.ResolveDisputeKeeps` | backend/src/admin/admin.service.ts:193-218 | The resolution, which calls no provider, keeps them |
| `Invariants.StepSound` | backend/src/payments/refund.service.ts:20-26 | Every statement of every handler keeps the row invariant, promises the other handlers what they rely on, and leaves its own handler what its next statement relies on |
| `Invariants.BeginSound` | backend/src/tasks/tasks.service.ts:178-198 | The checks at the start of every request establish what its first write relies on |
| `Invariants.Stable` | backend/src/tasks/tasks.service.ts:200-204 | What a stale snapshot implies survives every step of any other handler |
| `World.CreatePreserves` | backend/src/tasks/tasks.service.ts:42-81 | A creation keeps the system invariant; a crash between its two inserts is allowed for |
| `World.ReceivePreserves` | backend/src/tasks/tasks.service.ts:177-181 | A request that reads its snapshot keeps the system invariant |
| `World.NotifyPreserves` | backend/src/payments/payments.service.ts:145-152 | Routing a notification by order id keeps the system invariant |
| `World.ScanPreserves` | backend/src/scheduler/scheduler.service.ts:36-45 | A scheduled scan leaves a list every item of which stays justified however stale it becomes |
| `World.RunPreserves` | backend/src/payments/refund.service.ts:106-163 | A statement of any handler keeps the system invariant with all other handlers in flight |
| `World.CountersGrow` | backend/src/tasks/tasks.service.ts:315-322 | The job counters move in the release transaction exactly as the releases do |
| `World.QuietPreserves` | backend/src/admin/admin.service.ts:95-102 | The clock and profile reviews disturb no handler and no counter |
| `World.StepPreserves` | backend/src/payments/refund.service.ts:20-26 | Every step of the system keeps the invariant of all rows, all handlers in flight and all counters, and changes rows only as promised |
| `World.RunInv` | backend/src/payments/refund.service.ts:20-26 | That invariant holds in every world of every run |
| `Safety.NoCancelledHeld` | backend/src/payments/refund.service.ts:211-215 | No run, with stale blind writes, disputes and crashes, reaches a CANCELLED task with a HELD escrow; the anomaly query of the sweep is always empty |
| `Safety.HeldMoves` | backend/src/payments/payments.service.ts:179-207 | Only a funding enters HELD; only a release, a cancel, a refund claim or a dispute leaves it |
| `Safety.HeldIsOneShot` | backend/src/tasks/tasks.service.ts:305-315 | In every run an escrow enters HELD at most once and leaves it at most once, by one of those four; it is HELD exactly when it has entered and not left |
| `Safety.OpensAndAcceptsOnce` | backend/src/payments/payments.service.ts:174-211 | In every run a task opens and is announced at most once, at most one TASK_ACCEPTED is emitted and only for an assigned task, and the doer is not the poster |
| `Safety.PaysOutOnce` | backend/src/payments/payout.service.ts:27-78 | In every run an escrow is released at most once, with at most one dispatch and one PAYMENT_RELEASED, never without a release; the payout row is the assigned doer's and worth the net amount |
| `Safety.RefundsOnce` | backend/src/payments/refund.service.ts:106-163 | In every run provider calls never exceed `attempts`, at most one succeeds, and COMPLETED means that one did |
| `Safety.OneExecutor` | backend/src/payments/refund.service.ts:126-137 | In every world of every run at most one handler is between the claim of a refund and the record of its result |
| `Safety.JobsAreReleases` | backend/src/tasks/tasks.service.ts:315-322 | In every run `totalJobsCompleted` equals the number of release transactions that matched with that doer |
| `History.WrittenOnce` | backend/src/payments/payments.service.ts:179-199 | From any world of a run to any later one: doer, captured payment id, amounts, a completed refund, a payout's owner and amount and a settled fee never change |
| `History.PaymentIsCaptured` | backend/src/payments/refund.service.ts:62-67 | A payment id is set only when the escrow is not PENDING; past its status check a refund has seen the id that was captured, so the "no captured payment" check fires there exactly when the notification carried none; every provider refund is asked for that payment, its row for the checkout charge |
| `History.PaymentIsWhatWasCaptured` | backend/src/payments/payments.service.ts:164-196 | In every run an escrow has left PENDING exactly when an earlier step captured its payment, and its payment id is from then on what that step's notification carried: none, when it carried none |
| `History.RefundedIsJustified` | backend/src/payments/refund.service.ts:139-154 | REFUNDED implies a COMPLETED refund that the provider confirmed once, or a dispute resolved for the poster at an earlier step of the run |
| `History.RefundedEnteredExactly` | backend/src/payments/refund.service.ts:139-154 | A statement makes an escrow REFUNDED exactly when it records a successful call or resolves a dispute for the poster |
| `History.RefundedAt` | backend/src/admin/admin.service.ts:204-212 | The same of every step of every run |
| `History.ReleasedEnteredExactly` | backend/src/admin/admin.service.ts:204-212 | A statement makes an escrow RELEASED exactly when it is a release that finds it HELD or resolves a dispute for the doer |
| `History.ReleasedAt` | backend/src/admin/admin.service.ts:204-212 | The same of every step of every run |
| `History.ReleasedIsJustified` | backend/src/admin/admin.service.ts:204-212 | A RELEASED escrow had a release that matched, or a resolution for the doer, earlier in the run |
| `History.RecordedSuccess` | backend/src/payments/refund.service.ts:139-154 | A success is recorded only after exactly one call has succeeded |
| `History.RefundedOnPaperExactly` | backend/src/admin/admin.service.ts:204-212 | In every run, as long as no call has succeeded, an escrow becomes REFUNDED exactly at a resolution for the poster |
| `History.FundingGate` | backend/src/payments/payments.service.ts:201-207 | An escrow or fee is PENDING only while its task is PENDING_PAYMENT or CANCELLED, so the held-only writes change no row; a REFUNDED fee belongs to a cancelled task that never opened |
| `History.AssignedOnce` | backend/src/tasks/tasks.service.ts:200-211 | Over all concurrent accepts `doerId` is written at most once and never changes |
| `History.ChecksHappened` | backend/src/tasks/tasks.service.ts:183-198 | A handler past the profile check serves an accept of that doer, and after its arrival found the profile approved and of the required tier |
| `History.AssigneeWasEligible` | backend/src/tasks/tasks.service.ts:183-191 | In every run the doer who gets a task was found approved and of at least the required tier after the accept that assigns it had arrived |
| `History.CancelIsFinalForMoney` | backend/src/tasks/tasks.service.ts:400-416 | After a committed cancel no release of that task matches, even when a stale write has revived the status |
| `History.CompletionsHappened` | backend/src/tasks/tasks.service.ts:245-252 | Every completion a release may rest on was made, by that doer at that time, earlier in the run |
| `History.ConfirmRequested` | backend/src/tasks/tasks.service.ts:264-277 | Every handler that releases on a confirmation serves a confirm request of the poster that found the task COMPLETED when it arrived |
| `History.ReleaseProvenance` | backend/src/scheduler/scheduler.service.ts:36-50 | Every release that matches pays the assigned doer after that doer's `markComplete`; its handler serves the poster's `confirm`, which found the task COMPLETED, or it comes at least 24 hours after such a completion, although the scheduler works from a stale list |
| `History.PayoutsCarryNet` | backend/src/tasks/tasks.service.ts:340-360 | Every dispatch and every PAYMENT_RELEASED carries the assigned doer and the net amount |
| `History.RoutingIsUnambiguous` | backend/src/payments/payments.service.ts:145-150 | In every world an order id leads to at most one escrow or fee, and never to both |
| `History.ReplayIsHarmless` | backend/src/payments/payments.service.ts:168-171 | Once a payment has been applied, no step of any later notification, at any point of the run, changes a row or another handler; it can only re-drive the refund of a cancelled task |
| `History.LatecomersLeaveNoTrace` | backend/src/tasks/tasks.service.ts:305-332 | A handler whose conditional write comes too late (a funding, assignment, release, payout, cancel, refund row, refund claim or dispute that another handler has overtaken) changes no column, except that a confirmation still stamps the task, and then ends, or goes on with the row that was there first |
| `Ledger.CalmRunInv` | backend/src/payments/refund.service.ts:52-100 | Without disputes and admin refunds a refund row exists only for money that is going back, and RELEASED means released |
| `Ledger.PaidOrRefunded` | backend/src/payments/refund.service.ts:52-100 | In those runs no escrow ever has both a payout and a refund row |
| `Ledger.CaseBalances` | backend/src/tasks/tasks.service.ts:62-75 | The charge of one task is what was refunded, paid out, is in custody, or is retained |
| `Ledger.TableBalances` | backend/src/admin/admin.service.ts:285-303 | The same over any number of tasks, by sums |
| `Ledger.BooksBalance` | backend/src/admin/admin.service.ts:291-302 | In every such run refunds plus payouts never exceed the captured charges; the rest is the charges of HELD and REFUND_PENDING escrows plus what RELEASED ones retain; the held sum shown to admins is covered |
| `Races.AdminRefundRacesRelease` | backend/src/payments/refund.service.ts:71-74 | A run in which an admin refund and a release interleave: the payout is dispatched and the provider refunds the whole charge |
| `Races.RefundedOnPaper` | backend/src/admin/admin.service.ts:193-218 | A run in which an escrow becomes REFUNDED without a refund row or a provider call |
| `Races.ReleaseWithoutPayout` | backend/src/tasks/tasks.service.ts:334-353 | A run in which a handler dies after its release has matched: no payout row exists, and none can follow |
| `Races.ReleasedOnPaper` | backend/src/admin/admin.service.ts:204-212 | A run in which an escrow becomes RELEASED although no release ever matched and no payout exists |
| `Races.UnidentifiedPayment` | backend/src/payments/payments.service.ts:131-183 | A run in which a notification without a payment id captures the money and a cancel follows: the escrow awaits a refund, and on no path does one ever complete |
| `Races.CrashAfterClaim` | backend/src/payments/refund.service.ts:126-137 | A run in which a handler dies after the claim of its refund, which stays in PROCESSING |
| `Races.StaleStartRevivesTask` | backend/src/tasks/tasks.service.ts:234-237 | A run in which a stale start takes a cancelled task back to IN_PROGRESS |
| `Races.DisputeReopensReleased` | backend/src/tasks/tasks.service.ts:457-463 | A run in which a stale dispute takes a RELEASED escrow to DISPUTED |
| `Races.CreationOverwritesPaid` | backend/src/payments/payout.service.ts:70-78 | A run in which a payout that was marked PAID is PENDING again one step later |
| `Races.ConfirmMeetsCancel` | backend/src/tasks/tasks.service.ts:234-237 | A run in which a confirmation is about to release, and a cancel about to commit, on one held escrow: a stale start has put the task back to IN_PROGRESS |
| `Races.ConfirmMeetsDispute` | backend/src/tasks/tasks.service.ts:457-463 | A run in which a confirmation is about to release, and a dispute about to commit, on one held escrow |
| `Races.ResolutionMeetsDispute` | backend/src/admin/admin.service.ts:193-218 | A run in which a dispute is about to be resolved, either way, and a second one about to be raised |
| `Races.StuckStays` | backend/src/payments/refund.service.ts:126-137 | No step of any handler moves a refund that is PROCESSING without an executor |
| `Races.StuckForever` | backend/src/payments/refund.service.ts:126-137 | A refund whose executor crashed after the claim stays PROCESSING in all later worlds of every run |
| `Limits.NoLaterRelease` | backend/src/tasks/tasks.service.ts:306-307 | Once money cannot be held again, no release of that task matches any more |
| `Limits.ClaimEndsHeld` | backend/src/payments/refund.service.ts:69-74 | After the claim the money cannot be held again, whether or not the claim matched |
| `Limits.ClaimDecides` | backend/src/payments/refund.service.ts:69-90 | In every run, disputes and admin refunds included: an escrow whose refund is being claimed is also released, sooner or later, exactly when it already carries a doer at the moment of the claim; a payout row implies that it did |
| `Limits.RefundFollowsClaim` | backend/src/payments/refund.service.ts:69-90 | In every run a refund row means that the escrow of the task was claimed at an earlier step |
| `Limits.MovedTwiceExactly` | backend/src/payments/refund.service.ts:20-26 | In every run, disputes and admin refunds included: a task with a refund row was also released to its doer exactly when an earlier claim found a doer in the escrow; a payout row beside the refund row implies such a claim |
| `Limits.CarriesDoerExactly` | backend/src/tasks/tasks.service.ts:306-312 | In dispute-free runs, before a refund row exists, an escrow carries a doer exactly when it is RELEASED |
| `Limits.RefundedExactly` | backend/src/payments/refund.service.ts:139-154 | In every dispute-free run, admin refunds included, an escrow is REFUNDED exactly when its refund is COMPLETED |
| `Finality.CancelledIsFinalExactly` | backend/src/tasks/tasks.service.ts:229-252 | A CANCELLED task stays so in all that can follow exactly when it has no dispute and no start, completion, dispute or resolution that checked it earlier still has its write to make |
| `Finality.PaidIsFinalExactly` | backend/src/payments/payout.service.ts:63-78 | A PAID payout stays so exactly when no handler has still to dispatch it or to write its status |
| `Finality.ReleasedIsFinalExactly` | backend/src/tasks/tasks.service.ts:453-463 | A RELEASED escrow stays so exactly when the task is CANCELLED without a dispute, no handler is about to write its status, and no refund of it can still go through; never while the task can be disputed |
| `Finality.ProcessingIsFinalExactly` | backend/src/payments/refund.service.ts:126-163 | A refund in PROCESSING stays so exactly when its executor is gone |
| `Finality.UnpaidIsFinalExactly` | backend/src/tasks/tasks.service.ts:334-353 | Money that cannot be held again stays without a payout exactly when no handler that released it is on its way to create one: nothing recovers a payout that was lost |
| `Finality.RefundIsPossibleExactly` | backend/src/payments/refund.service.ts:108-163 | From a reachable world in which an escrow awaits its refund, some path completes it exactly when its payment id is known and its row is not PROCESSING without an executor; as long as it has not completed, the escrow becomes REFUNDED on some path exactly then |
| `Finality.UnidentifiedIsLost` | backend/src/payments/refund.service.ts:62-67 | Captured money whose payment id is missing is on no path ever refunded through the provider |
| `Finality.Stays` | backend/src/payments/refund.service.ts:20-26 | A fact that statements keep away from certain program points lasts forever once no handler stands at one |
| `Serial.RankDecreases` | backend/src/payments/refund.service.ts:52-163 | Every handler ends |
| `Serial.SoloReaches` | backend/src/payments/refund.service.ts:52-163 | A handler that runs alone is a run of the interleaved system |
| `Serial.SoloKeeps` | backend/src/payments/refund.service.ts:20-26 | A handler that runs alone keeps the row invariant |
| `Serial.SoloAtomic` | backend/src/admin/admin.service.ts:229-245 | Run alone, no handler brings a refund to a released escrow, a cancel to a disputed task, or a cancelled task back |
| `Serial.ServeAtomic` | backend/src/admin/admin.service.ts:181-245 | No request served alone, disputes, resolutions and admin refunds included, gives one escrow both a payout and a refund; CANCELLED is terminal |
| `Serial.ServeKeepsProfiles` | backend/src/tasks/tasks.service.ts:315-322 | No request but a confirmation touches a profile |
| `Serial.ServeReaches` | backend/src/payments/refund.service.ts:20-26 | Serving a request alone leads from a reachable quiet state to another |
| `Requests.SoloExecutes` | backend/src/payments/refund.service.ts:106-163 | Alone, an execution calls the provider once when it is configured and records its answer in refund row and escrow; every other column and every event counted |
| `Requests.SoloSeeksRefund` | backend/src/payments/refund.service.ts:52-100 | Alone, from any rows: an open refund row is attempted; without a row, identified money that is HELD, DISPUTED or REFUND_PENDING goes to REFUND_PENDING with a row for budget plus poster fee, which is attempted; otherwise nothing changes |
| `Requests.SoloRereads` | backend/src/payments/refund.service.ts:81-97 | Alone, a creation that met another one's row attempts that row while it is open |
| `Requests.SoloRefunds` | backend/src/payments/refund.service.ts:52-100 | Alone, a refund of an escrow that awaits one makes one attempt, at a new row for the full charge when there is none, as long as the payment id is known and no attempt is done or in flight |
| `Requests.SoloRefuses` | backend/src/payments/refund.service.ts:62-67 | Alone, any other refund of such an escrow changes nothing |
| `Requests.SoloCancels` | backend/src/tasks/tasks.service.ts:392-445 | Alone, a cancel of a cancellable task puts HELD money on its way back, seeks the refund of money that is, and leaves any other money alone |
| `Requests.CancelRefunds` | backend/src/tasks/tasks.service.ts:366-375 | Alone, exactly a participant or an admin cancels, and exactly a PENDING_PAYMENT, OPEN, ASSIGNED or IN_PROGRESS task; any other cancel changes nothing |
| `Requests.AdminSeeksRefund` | backend/src/admin/admin.service.ts:233-245 | Alone, an admin refund seeks the refund of any escrow that is not DISPUTED, and does nothing else |
| `Requests.RetryAttempts` | backend/src/payments/refund.service.ts:166-176 | Alone, a retry attempts exactly a PENDING or FAILED refund |
| `Requests.AcceptAssigns` | backend/src/tasks/tasks.service.ts:177-227 | Alone, exactly an OPEN task with secured money is assigned, to an approved user of at least the required tier other than the poster, with one TASK_ACCEPTED; any other accept changes nothing |
| `Requests.StartStarts` | backend/src/tasks/tasks.service.ts:229-238 | Alone, exactly the assigned doer starts exactly an ASSIGNED task |
| `Requests.CompleteCompletes` | backend/src/tasks/tasks.service.ts:240-262 | Alone, exactly the assigned doer completes exactly an ASSIGNED or IN_PROGRESS task, stamping the time |
| `Requests.SoloReleases` | backend/src/tasks/tasks.service.ts:300-364 | Alone, a release of held money opens a PENDING payout of the net amount to the doer, dispatches it once and emits one PAYMENT_RELEASED; only a confirmation stamps the task |
| `Requests.ConfirmPays` | backend/src/tasks/tasks.service.ts:264-298 | Alone, exactly the poster confirms exactly a COMPLETED task whose money, if any, is HELD, which is stamped and paid out; any other confirmation changes nothing |
| `Requests.MarkPaidMarks` | backend/src/payments/payout.service.ts:95-102 | Alone, exactly an existing payout becomes PAID, and nothing else changes |
| `Requests.DisputeFreezes` | backend/src/tasks/tasks.service.ts:447-474 | Alone, exactly the first dispute by a participant of an ASSIGNED, IN_PROGRESS or COMPLETED task marks task and escrow DISPUTED; any other changes nothing |
| `Requests.ResolutionWrites` | backend/src/admin/admin.service.ts:181-221 | Alone, a resolution completes the task and writes REFUNDED or RELEASED into its escrow, by verdict, and touches no other money column and no event |
| `Requests.CheckoutOrders` | backend/src/payments/payments.service.ts:39-73 | Alone, exactly the poster's checkout of a PENDING escrow or fee stores its order id; any other changes nothing |
| `Requests.NotificationFunds` | backend/src/payments/payments.service.ts:164-228 | Alone, the first notification opens the waiting task with its money HELD and announces it once, or puts money of a cancelled task on its way back and seeks its refund; every later one changes nothing |
| `Requests.NotificationPaysFee` | backend/src/payments/payments.service.ts:230-281 | Alone, the first fee notification opens the waiting task and announces it once, or marks the fee of a cancelled one REFUNDED; every later one changes nothing |
| `Sweeps.CreateReaches` | backend/src/tasks/tasks.service.ts:42-81 | A creation served alone leads to a reachable state |
| `Sweeps.NeverBoth` | backend/src/admin/admin.service.ts:181-245 | After any sequence of requests served alone, no escrow has both a payout and a refund |
| `Sweeps.OrdersAreUnique` | backend/src/payments/payments.service.ts:145-150 | An order id leads to at most one row of a reachable state |
| `Sweeps.NotifyReaches` | backend/src/payments/payments.service.ts:145-147 | A notification served alone leads to a reachable state |
| `Sweeps.NotifyFeeReaches` | backend/src/payments/payments.service.ts:149-152 | So does a fee notification, and one that no row owns |
| `Sweeps.SweepItem` | backend/src/payments/refund.service.ts:197-209 | One item of a sweep changes its own rows only, as a refund served alone, and counts as completed when it completes, as failed when its payment id is missing |
| `Sweeps.PendingAreSwept` | backend/src/payments/refund.service.ts:192-196 | The query asks for exactly the REFUND_PENDING escrows, 100 at a time |
| `Sweeps.SweptSought` | backend/src/payments/refund.service.ts:197-209 | A whole sweep seeks the refund of each picked escrow and leaves every other task as it was |
| `Sweeps.SweepEnds` | backend/src/payments/refund.service.ts:211-231 | The second scan of a sweep is empty |
| `Sweeps.AwaitingIsRefundable` | backend/src/payments/refund.service.ts:197-209 | The refund of an escrow that awaits one passes the status check, and has a payment id as soon as it has a refund row: only a missing id can reach the first catch block |
| `Sweeps.SweepRefunds` | backend/src/payments/refund.service.ts:197-205 | With an accepting provider and no refund left in PROCESSING, an item ends COMPLETED and REFUNDED, unless its payment id is missing, when nothing changes |
| `Sweeps.AnswerSize` | backend/src/payments/refund.service.ts:192-196 | The unordered query returns 100 rows, or all when there are fewer |
| `Sweeps.SweepConverges` | backend/src/payments/refund.service.ts:189-234 | Whichever min(100, n) rows the query picks, one sweep completes exactly those whose payment id is known, lowers n by exactly that, and leaves the others waiting |
| `Sweeps.Query` | backend/src/payments/refund.service.ts:192-196 | An unordered query returns distinct matching rows, all of them unless the limit is reached |
| `Sweeps.OverdueIsDue` | backend/src/scheduler/scheduler.service.ts:36-45 | The query asks for exactly the COMPLETED, unconfirmed ESCROW tasks with HELD money that were completed at least 24 hours ago |
| `Sweeps.DueReleases` | backend/src/scheduler/scheduler.service.ts:36-50 | Such a task can be released to its doer, and the release pays the net amount, with one dispatch and one event |
| `Sweeps.ConfirmCounts` | backend/src/tasks/tasks.service.ts:316-321 | A confirmation that pays counts one job for the doer, and no other does |
| `Sweeps.JobsGrow` | backend/src/tasks/tasks.service.ts:316-321 | The hourly release counts for each user as many jobs as it pays that user |
| `Sweeps.NothingDue` | backend/src/scheduler/scheduler.service.ts:36-57 | When every such task was released, none is left |
| `Backend.Services.constructor` | backend/src/tasks/tasks.service.ts:22-29 | The empty database is valid |
| `Backend.Services.CreateTask` | backend/src/tasks/tasks.service.ts:31-84 | Exactly for an active category adds one task in PENDING_PAYMENT with its PENDING escrow, whose amounts are 5%, 15%, 5% and 85% of the budget to a nearest cent, or its pending posting fee of 99.00, and nothing else |
| `Backend.Services.Accept` | backend/src/tasks/tasks.service.ts:177-227 | Column by column: assigns exactly an open task of another poster to an approved profile of at least the required tier and, in escrow mode, with held money; one TASK_ACCEPTED; nothing else changes; exact conditions of all three errors |
| `Backend.Services.MarkStarted` | backend/src/tasks/tasks.service.ts:229-238 | Column by column: exactly the assigned doer of an ASSIGNED task starts it; exact conditions of all errors |
| `Backend.Services.MarkComplete` | backend/src/tasks/tasks.service.ts:240-262 | Column by column: exactly the assigned doer of an ASSIGNED or IN_PROGRESS task completes it, stamping the time; exact conditions of all errors |
| `Backend.Services.ReleaseEscrow` | backend/src/tasks/tasks.service.ts:300-332 | Rows and profile as when run alone; true exactly when the escrow was HELD |
| `Backend.Services.PayRelease` | backend/src/tasks/tasks.service.ts:334-361 | Payout and event of a committed release, as when run alone |
| `Backend.Services.Confirm` | backend/src/tasks/tasks.service.ts:264-298 | Column by column: exactly the poster of a COMPLETED task whose money, if any, is HELD; the payout, its dispatch, the event, and one job counted for the doer; exact conditions of all errors |
| `Backend.Services.Cancel` | backend/src/tasks/tasks.service.ts:366-375 | Exactly a participant of a PENDING_PAYMENT, OPEN, ASSIGNED or IN_PROGRESS task; what becomes of its money and its refund; exact conditions of all errors |
| `Backend.Services.ForceCancelTask` | backend/src/admin/admin.service.ts:267-269 | The same for an admin and any task |
| `Backend.Services.ExecuteCancel` | backend/src/tasks/tasks.service.ts:392-445 | Succeeds exactly in those states, and changes nothing otherwise |
| `Backend.Services.RaiseDispute` | backend/src/tasks/tasks.service.ts:447-474 | Column by column: exactly a participant in a disputable state without an earlier dispute; opens one and freezes the escrow; exact conditions of all errors |
| `Backend.Services.InitiatePayment` | backend/src/payments/payments.service.ts:39-102 | Exactly the poster of an unpaid task; stores `HM-` or `HMF-` and the upper-cased task id, and asks for budget plus poster fee, or 99.00; the order id stays when addresses are missing |
| `Backend.Services.FindEscrow` | backend/src/payments/payments.service.ts:146 | The escrow that carries the order id, or none does |
| `Backend.Services.FindFee` | backend/src/payments/payments.service.ts:149 | The fee that carries the order id, or none does |
| `Backend.Services.HandleWebhook` | backend/src/payments/payments.service.ts:126-153 | Rejects exactly the unsigned; for each task, by its order id: what the notification makes of its escrow or fee, the announcement included, with or without a payment id; every other task stays as it was |
| `Backend.Services.ApplyEscrowPayment` | backend/src/payments/payments.service.ts:164-228 | Rows as after a funding run alone |
| `Backend.Services.ApplyPostingFeePayment` | backend/src/payments/payments.service.ts:230-281 | Rows as after a fee payment run alone |
| `Backend.Services.CreateForEscrowRelease` | backend/src/payments/payout.service.ts:27-79 | An existing payout is left alone; otherwise one PENDING payout of this amount to this doer |
| `Backend.Services.MarkPaid` | backend/src/payments/payout.service.ts:95-102 | Succeeds exactly when there is a payout, which becomes PAID; nothing else changes |
| `Backend.Services.InitiateForEscrow` | backend/src/payments/refund.service.ts:52-100 | Rows as when run alone; exact conditions of both errors; leaves the task row alone |
| `Backend.Services.Execute` | backend/src/payments/refund.service.ts:106-163 | Rows as when run alone; returns the row it leaves |
| `Backend.Services.Retry` | backend/src/payments/refund.service.ts:166-176 | Attempts exactly a PENDING or FAILED refund; exact conditions of both errors |
| `Backend.Services.InitiateEscrowRefund` | backend/src/admin/admin.service.ts:233-245 | Succeeds exactly when the escrow is not DISPUTED and has a refund already, or is HELD or REFUND_PENDING with a payment id; what becomes of its money and refund; never beside a payout |
| `Backend.Services.ResolveDispute` | backend/src/admin/admin.service.ts:181-221 | Column by column: exactly where there is a dispute; escrow by verdict, task COMPLETED, nothing else |
| `Backend.Services.SubmitKyc` | backend/src/doer/doer.service.ts:26-87 | Exact error conditions; a new or renewed application waits for a review, and keeps tier and job counter |
| `Backend.Services.ReviewProfile` | backend/src/admin/admin.service.ts:95-137 | Not found without a profile; an approval sets the tier, a rejection keeps it; the job counter survives both |
| `Backend.Services.Reconcile` | backend/src/payments/refund.service.ts:189-234 | Of the REFUND_PENDING escrows the picked ones, at most 100, have their refund sought, and no other task changes; the second scan is empty; `completed` counts the picks whose refund ends COMPLETED, and the caught errors are those of missing payment ids |
| `Backend.Services.ReconcileRefunds` | backend/src/scheduler/scheduler.service.ts:24-30 | With an accepting provider: scanned is min(100, n), completed and failed make it up, n falls by completed, and nothing fails when every payment id is known |
| `Backend.Services.SweepHourly` | backend/src/scheduler/scheduler.service.ts:23-30 | k hourly sweeps leave max(0, n - 100k) waiting refunds when every payment id is known; with n at most 100k they leave none exactly then |
| `Backend.Services.AutoReleaseEscrows` | backend/src/scheduler/scheduler.service.ts:33-64 | Exactly the COMPLETED, unconfirmed ESCROW tasks with HELD money that were completed 24 hours ago or earlier are released and paid, every one of them counted, for its doer too; all others stay as they were, and none is due afterwards |
| `Backend.Services.EscrowHeld` | backend/src/admin/admin.service.ts:291-302 | `escrowHeldLkr` is the sum of the budgets of HELD escrows |
| `RowLocks.SerialIsTransaction` | backend/src/payments/payments.service.ts:173-208 | The atomic transactions of the other modules are the serial execution of these statements |
| `RowLocks.NeverDeadlocks` | backend/src/tasks/tasks.service.ts:389-390 | From any rows, in every state of every interleaving some unfinished transaction can run: task row before escrow row |
| `RowLocks.RunsEnd` | backend/src/tasks/tasks.service.ts:400-416 | Every interleaving ends after at most four statements for each transaction |
| `RowLocks.CommitIsSerial` | backend/src/payments/payments.service.ts:173-208 | At its commit a transaction has written what it would write if it ran then, at once |
| `RowLocks.CommitLeaves` | backend/src/payments/payments.service.ts:161-162 | A commit takes nothing from what another transaction knows by its locks and reads |
| `RowLocks.LogIsCommitted` | backend/src/payments/payments.service.ts:173-208 | The serial order holds exactly the transactions that committed |
| `RowLocks.CommitOrderIsSerial` | backend/src/payments/payments.service.ts:161-162 | Committed rows are what the committed transactions leave one after the other, in commit order, unless a row was exposed |
| `RowLocks.BadIsUnexplained` | backend/src/payments/payments.service.ts:201-207 | From an exposed row a funding and a cancel can end in rows that no serial order leaves |
| `RowLocks.SerializableExactly` | backend/src/payments/payments.service.ts:161-162 | All interleavings of fundings and cancels are serializable exactly when no escrow is PENDING on a task that is open, assigned or in progress |
| `RowLocks.ReachableIsUnexposed` | backend/src/payments/payments.service.ts:201-207 | The rows of a reachable state never are |
| `LockOrder.OnlyCrossedDeadlock` | backend/src/tasks/tasks.service.ts:389-390 | With releases, disputes and resolutions as well, some transaction can always run unless two of them are crossed: one waits for the task row, which the other holds while it waits for a row of the first |
| `LockOrder.CrossedStays` | backend/src/tasks/tasks.service.ts:305-329 | Two crossed transactions both wait, whatever others do, until one of them is rolled back |
| `LockOrder.CrossedForever` | backend/src/tasks/tasks.service.ts:305-329 | The same over whole runs |
| `LockOrder.CrossedKinds` | backend/src/tasks/tasks.service.ts:457-463 | From rows without a dispute on pending or held money, in every state of every interleaving, only a confirmed release crosses with a cancel or a dispute, and a resolution with a second dispute if inserts wait |
| `Deadlocks.CanCrossExactly` | backend/src/tasks/tasks.service.ts:305-329 | Of the transactions that the handlers of a reachable world are about to start, two can come to wait for each other exactly when they are a confirmed release and a cancel or a dispute of one task, or, if the insert of a dispute waits for a transaction that is changing the row with its key, a resolution and a second dispute |
| `Deadlocks.AloneIsTransaction` | backend/src/tasks/tasks.service.ts:400-416 | Run alone, the locked statements of a funding, cancel, release, dispute or resolution leave the task status, escrow status and dispute that the transaction leaves as one step of its handler |
| `Deadlocks.ConfirmAndDisputeDeadlock` | backend/src/tasks/tasks.service.ts:457-463 | On a COMPLETED task with HELD money a confirmation and a dispute deadlock, whether or not inserts wait |
| `Deadlocks.ConfirmAndCancelDeadlock` | backend/src/tasks/tasks.service.ts:400-416 | On an IN_PROGRESS task with HELD money a late confirmation and a cancel deadlock |
| `Deadlocks.ResolutionAndDisputeDeadlock` | backend/src/admin/admin.service.ts:193-218 | On a disputed task a resolution and a second dispute deadlock, if inserts wait |
| `Otp.IssueKeeps` | backend/src/auth/auth.service.ts:34-65 | Issuing keeps every token's count of comparisons and the spacing of tokens |
| `Otp.VerifyCounts` | backend/src/auth/auth.service.ts:77-92 | Verifying keeps every token's count: failed attempts, and at most one match, after which the token is used |
| `Otp.VerifyKeeps` | backend/src/auth/auth.service.ts:67-100 | Verifying keeps the whole invariant |
| `Otp.TokenBound` | backend/src/auth/auth.service.ts:77-92 | Over a whole run a token faces at most five comparisons and grants at most one login |
| `Otp.TokensApart` | backend/src/auth/auth.service.ts:43-52 | Tokens of one phone are at least one cooldown apart |
| `Otp.IssueAnswers` | backend/src/auth/auth.service.ts:34-65 | Issuing from any reachable state, column by column |
| `Otp.TokensWereIssued` | backend/src/auth/auth.service.ts:58-60 | In every run each token was issued at an earlier step, to the user who had its phone then |
| `Otp.LoginsWereIssued` | backend/src/auth/auth.service.ts:67-92 | In every run a login is granted only with the code that was issued for that phone less than one expiry before, and to the user who had the phone then |
| `Otp.GuessBound` | backend/src/auth/auth.service.ts:43-98 | In every run the comparisons for a phone in any window of length W are at most 5 * (floor((W + expiry - 1) / cooldown) + 1), and none when codes expire at once; hence at most 5 * (floor((W + expiry) / cooldown) + 1) |
| `Otp.DefaultBound` | backend/src/auth/auth.service.ts:43-56 | With the default settings: at most 325 in an hour and 25 at one moment |
| `Guessing.BoundIsReached` | backend/src/auth/auth.service.ts:67-92 | For every positive cooldown, every expiry and every window length some run makes exactly as many comparisons as the bound allows |
| `Guessing.DefaultsAreReached` | backend/src/auth/auth.service.ts:43-56 | With the default settings some run makes 325 comparisons in an hour, and some 25 at one moment |
| `Guessing.NoBoundWithoutCooldown` | backend/src/auth/auth.service.ts:43-52 | Without a cooldown, and with codes that do not expire at once, some run makes 5n comparisons at one moment, for every n |
| `Otp.AuthService.IssueOtp` | backend/src/auth/auth.service.ts:34-65 | On success the tokens are the old ones and one that belongs to the user with this phone, with the digest of phone and code, issued now, lasting one expiry, untried and unused; an unknown phone gets a user row in any case; suspended exactly when that user is, refused exactly within the cooldown |
| `Otp.AuthService.constructor` | backend/src/auth/auth.service.ts:18-24 | The empty service is valid |
| `Otp.AuthService.SetBanned` | backend/src/admin/admin.service.ts:149-159 | A known user is suspended or reinstated; an unknown one is not found |
| `Otp.AuthService.FindLatest` | backend/src/auth/auth.service.ts:68-71 | An unused, unexpired token of the phone than which none is later, or there is none |
| `Otp.AuthService.FindRecent` | backend/src/auth/auth.service.ts:43-47 | Whether a token of the phone is younger than the cooldown |
| `Otp.AuthService.VerifyOtp` | backend/src/auth/auth.service.ts:67-100 | The latest usable token alone changes: one attempt more on a wrong code while fewer than five were made, used otherwise; a session exactly when the code is right, fewer than five attempts were made, and the user for whom the token was issued is not suspended; it is that user's session, even when the phone has changed hands |
| `Otp.AuthService.DeleteMe` | backend/src/users/users.service.ts:82-101 | A known user gives up the phone, and the tokens stay; an unknown one is not found |
| `StorageKeys.PatternIsText` | backend/src/uploads/upload-purpose.ts:59-66 | An anchored pattern accepts exactly the texts of well-formed keys of its subtypes |
| `StorageKeys.SplitText` | backend/src/uploads/upload-purpose.ts:70 | Splitting a well-formed key gives back its subtype, user, name and extension |
| `StorageKeys.KeysAreUnique` | backend/src/uploads/upload-purpose.ts:64-66 | Every accepted key decomposes in one way |
| `StorageKeys.SubtypePattern` | backend/src/uploads/upload-purpose.ts:60-61 | The pattern of a subtype accepts exactly the accepted keys of that subtype |
| `StorageKeys.BelongsToOwner` | backend/src/uploads/upload-purpose.ts:69-70 | `kycKeyBelongsTo` holds exactly for the user in the key |
| `StorageKeys.MintedMatches` | backend/src/uploads/uploads.service.ts:31-35 | For every purpose, user and unique name: a minted key is accepted exactly when the purpose is private and both are segments, and belongs then to the minting user alone |
| `StorageKeys.MintedForItsPurpose` | backend/src/uploads/upload-purpose.ts:36-46 | A minted key is accepted by the pattern of its own purpose, nic, selfie, address, police, license or skill, and by no other; public keys lie in tasks/photos, tasks/completion or profiles |
| `StorageKeys.UploadsRoundTrip` | backend/src/uploads/uploads.service.ts:30-62 | For UUIDs and the three image types: exactly the private documents are accepted, under their own word, as the uploader's, and can be read back |
| `StorageKeys.ReadableIsPrivate` | backend/src/uploads/uploads.service.ts:52-59 | Of the minted keys exactly the private ones can be read through the private path |

## Left out

- HTTP, validation of requests, guards, dependency wiring, listings, counts other than the held
  sum, CSV export, ratings, messages, categories, nearby search: plumbing, or easy.
- Notification delivery and texts. Only TASK_POSTED, TASK_ACCEPTED and PAYMENT_RELEASED are
  counted.
- Wallet payouts and settlement of refunded posting fees: the code marks them as not
  implemented. `dispatch` is only ever called for BANK, which answers PENDING.
- The other columns of the rows: titles, photos, provider references, failure reasons, actors,
  and the time stamps acceptedAt, startedAt, heldAt, releasedAt, refundedAt and paidAt. Nothing
  decides by them. The read of the doer's bank details before a payout is left out with them.
- Row identifiers: escrow, refund, payout, fee and dispute are named by their task, which the
  unique keys of the schema make equivalent. Amounts are whole cents, as the Decimal columns
  store them; user ids and payment ids are numbers.
- The read of the provider's configuration is part of the step that reads the refund row, and
  the notes that a queued refund gets are not modelled. A provider call that throws is a crash
  of its handler.
- HandleWebhook: takes the signature check and the status code as yes-or-no inputs; an empty or
  null `payment_id` counts as a missing one.
- InitiatePayment: leaves out merchant data, hash and addresses; missing callback addresses
  are a yes-or-no input.
- CreateTask: takes the fresh UUID, the minimum budget of 500.00 and the activity of the
  category as given; the category's default tier is resolved by the caller.
- Accept: the reread of the task after the assignment is left out, because nothing depends on it.
- SweepHourly: nothing else runs between the sweeps; the interleaved system has the sweep as a
  handler like any other.
- SerializableExactly: is about fundings and cancels. `LockOrder` has the locks of releases,
  disputes and resolutions but not a serial order for them; the record of a refund and the
  posting-fee transaction are taken as atomic. They cannot deadlock: the one takes the escrow
  row last and the other the task row first, and no other transaction takes their third row.
- CanCrossExactly: the retry or rollback that a database chooses for a deadlock is a rollback
  of either transaction; which one it picks is left open.
- BooksBalance: covers escrows; posting fees are kept by the platform and not summed.
- SubmitKyc: the check that all documents are the user's own is a yes-or-no input here;
  `StorageKeys` has it in full. The contents of the application are left out.
- DeleteMe: the substitute for the phone of a deleted account is no phone number, and is
  modelled as the absence of one.
- GuessBound: requests are served one at a time on one clock; the digest is an arbitrary
  function, so it says nothing about guessing a code from its digest. Sending the message and
  signing the session token are left out.
- Presign: leaves out bucket names, presigned URLs and expiry times; PatternIsText takes a
  pattern to accept a text when the text is a concatenation of matches of its pieces, which is
  the meaning of an anchored regular expression, not how an engine finds it.
