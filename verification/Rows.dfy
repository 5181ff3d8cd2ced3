/** The rows that belong to one task, and the statements that change them.

    Every table of the money protocol has a unique key that leads to the task, and no
    code deletes a row, so the rows of one task are kept together in a `Case` and a
    table is the sequence of cases in order of creation. `Trail` records what has
    happened to a case; no statement reads it to decide anything. */
module Rows {
  import opened Wrappers
  import Fees
  import Orders

  type UserId = nat
  type PaymentId = nat
  type Time = nat
  type HandlerId = nat

  /** Hours after completion before an unconfirmed task is paid out, in milliseconds. */
  const AUTO_RELEASE_AFTER: Time := 24 * 60 * 60 * 1000
  /** The flat posting fee of a cash task, in cents. */
  const POSTING_FEE: int := 9900

  datatype PaymentMode = EscrowMode | CashMode
  datatype Tier = Bronze | Silver | Gold
  datatype TaskStatus = PendingPayment | Open | Assigned | InProgress | Completed | Cancelled | TaskDisputed
  datatype EscrowStatus = Pending | Held | Released | Refunded | EscrowDisputed | RefundPending
  datatype RefundReason = CancelReason | DisputeReason | AdminReason
  datatype RefundStatus = Queued | Processing | RefundDone | RefundFailed
  datatype PayoutStatus = PayoutPending | PayoutProcessing | PayoutPaid | PayoutFailed
  datatype FeeStatus = FeePending | FeePaid | FeeRefunded
  datatype DisputeStatus = DisputeOpen | DisputeResolved

  datatype Task = Task(uuid: string, posterId: UserId, doerId: Option<UserId>, budget: int,
                       mode: PaymentMode, status: TaskStatus, requiredTier: Tier,
                       completedAt: Option<Time>, confirmedAt: Option<Time>)
  datatype Escrow = Escrow(status: EscrowStatus, amounts: Fees.Split, paymentId: Option<PaymentId>,
                           orderId: Option<string>, doerId: Option<UserId>)
  datatype Refund = Refund(amount: int, reason: RefundReason, status: RefundStatus, attempts: nat)
  datatype Payout = Payout(doerId: UserId, amount: int, status: PayoutStatus)
  datatype PostingFee = PostingFee(amount: int, status: FeeStatus, paymentId: Option<PaymentId>,
                                   orderId: Option<string>)
  datatype Dispute = Dispute(raisedBy: UserId, status: DisputeStatus)
  datatype Profile = Profile(approved: bool, tier: Tier, jobs: nat)

  // --- What has happened ---

  /** Who asked for a release: the poster's confirmation, or the hourly scan made at
      `scan`, which saw `completedAt`. */
  datatype Cause = ByConfirm(user: UserId) | ByAuto(scan: Time, completedAt: Time)
  datatype Completion = Completion(doer: UserId, at: Time)
  datatype Transfer = Transfer(to: Option<UserId>, amount: int)

  datatype Trail = Trail(
    opens: nat, announcer: Option<HandlerId>, announced: nat,
    acceptor: Option<HandlerId>, accepted: nat,
    heldEntries: nat, heldExits: nat, cancels: nat,
    completions: set<Completion>,
    releases: nat, releasedTo: Option<UserId>, releaser: Option<HandlerId>, dispatches: nat, paidEvents: nat,
    executor: Option<HandlerId>, calls: nat, successes: nat,
    verdict: Option<bool>)

  const NO_TRAIL: Trail :=
    Trail(0, None, 0, None, 0, 0, 0, 0, {}, 0, None, None, 0, 0, None, 0, 0, None)

  datatype Case = Case(task: Task, escrow: Option<Escrow>, refund: Option<Refund>,
                       payout: Option<Payout>, fee: Option<PostingFee>, dispute: Option<Dispute>,
                       trail: Trail)

  /** A conditional update: the new rows and whether the WHERE clause matched. */
  datatype Update = Update(rows: Case, matched: bool)

  predicate Cancellable(s: TaskStatus) {
    s == PendingPayment || s == Open || s == Assigned || s == InProgress
  }

  predicate Refundable(s: EscrowStatus) {
    s == Held || s == EscrowDisputed || s == RefundPending
  }

  function TierRank(t: Tier): int {
    match t case Bronze => 0 case Silver => 1 case Gold => 2
  }

  function Charge(e: Escrow): int {
    Fees.Charge(e.amounts)
  }

  // --- Creation ---

  function NewCase(uuid: string, posterId: UserId, budget: int, mode: PaymentMode, tier: Tier): Case {
    Case(Task(uuid, posterId, None, budget, mode, PendingPayment, tier, None, None),
         None, None, None, None, None, NO_TRAIL)
  }

  /** The second insert of a creation; the unique task key refuses a second row. */
  function InsertMoneyRow(c: Case, s: Fees.Split): Case {
    if c.task.mode == EscrowMode then
      if c.escrow.Some? then c else c.(escrow := Some(Escrow(Pending, s, None, None, None)))
    else
      if c.fee.Some? then c else c.(fee := Some(PostingFee(POSTING_FEE, FeePending, None, None)))
  }

  // --- Checkout ---

  function SetEscrowOrder(c: Case): Case {
    if c.escrow.None? then c else
    c.(escrow := Some(c.escrow.value.(orderId := Some(Orders.EscrowOrder(c.task.uuid)))))
  }

  function SetFeeOrder(c: Case): Case {
    if c.fee.None? then c else
    c.(fee := Some(c.fee.value.(orderId := Some(Orders.FeeOrder(c.task.uuid)))))
  }

  // --- Payment notifications ---

  /** The payment id after a write of what a notification carried: a notification without an
      id leaves the column alone. */
  function Noted(column: Option<PaymentId>, payment: Option<PaymentId>): Option<PaymentId> {
    if payment.Some? then payment else column
  }

  function PromoteTask(c: Case, h: HandlerId): Case {
    c.(task := c.task.(status := Open),
       trail := c.trail.(opens := c.trail.opens + 1, announcer := Some(h)))
  }

  function CaptureEscrow(c: Case, to: EscrowStatus, payment: Option<PaymentId>): Case {
    if c.escrow.Some? && c.escrow.value.status == Pending then
      c.(escrow := Some(c.escrow.value.(status := to, paymentId := Noted(c.escrow.value.paymentId, payment))),
         trail := if to == Held then c.trail.(heldEntries := c.trail.heldEntries + 1) else c.trail)
    else c
  }

  function CaptureFee(c: Case, to: FeeStatus, payment: Option<PaymentId>): Case {
    if c.fee.Some? && c.fee.value.status == FeePending then
      c.(fee := Some(c.fee.value.(status := to, paymentId := Noted(c.fee.value.paymentId, payment))))
    else c
  }

  datatype HookOutcome = HookOpened | HookRefund | HookHeldOnly
  datatype Hooked = Hooked(rows: Case, outcome: HookOutcome)

  /** The funding transaction of an escrow: promote first, and let that decide. */
  function ApplyEscrowPayment(c: Case, h: HandlerId, payment: Option<PaymentId>): Hooked {
    if c.task.status == PendingPayment then
      Hooked(CaptureEscrow(PromoteTask(c, h), Held, payment), HookOpened)
    else if c.task.status == Cancelled then
      Hooked(CaptureEscrow(c, RefundPending, payment), HookRefund)
    else
      Hooked(CaptureEscrow(c, Held, payment), HookHeldOnly)
  }

  function ApplyFeePayment(c: Case, h: HandlerId, payment: Option<PaymentId>): Hooked {
    if c.task.status == PendingPayment then
      Hooked(CaptureFee(PromoteTask(c, h), FeePaid, payment), HookOpened)
    else if c.task.status == Cancelled then
      Hooked(CaptureFee(c, FeeRefunded, payment), HookRefund)
    else
      Hooked(CaptureFee(c, FeePaid, payment), HookHeldOnly)
  }

  function EmitPosted(c: Case): Case {
    c.(trail := c.trail.(announced := c.trail.announced + 1))
  }

  // --- Assignment and work ---

  function AssignDoer(c: Case, h: HandlerId, doer: UserId): Update {
    if c.task.status == Open && c.task.doerId.None? then
      Update(c.(task := c.task.(status := Assigned, doerId := Some(doer)),
                trail := c.trail.(acceptor := Some(h))), true)
    else Update(c, false)
  }

  function EmitAccepted(c: Case): Case {
    c.(trail := c.trail.(accepted := c.trail.accepted + 1))
  }

  function WriteStarted(c: Case): Case {
    c.(task := c.task.(status := InProgress))
  }

  function WriteCompleted(c: Case, doer: UserId, now: Time): Case {
    c.(task := c.task.(status := Completed, completedAt := Some(now)),
       trail := c.trail.(completions := c.trail.completions + {Completion(doer, now)}))
  }

  function WriteConfirmed(c: Case, now: Time): Case {
    c.(task := c.task.(confirmedAt := Some(now)))
  }

  // --- Leaving HELD ---

  function MoveEscrow(c: Case, to: EscrowStatus): Case {
    if c.escrow.None? then c else
    c.(escrow := Some(c.escrow.value.(status := to)),
       trail := if c.escrow.value.status == Held && to != Held
                then c.trail.(heldExits := c.trail.heldExits + 1) else c.trail)
  }

  predicate EscrowIs(c: Case, s: EscrowStatus) {
    c.escrow.Some? && c.escrow.value.status == s
  }

  predicate IsHeld(c: Case) {
    c.escrow.Some? && c.escrow.value.status == Held
  }

  /** The release transaction. A confirmation also stamps the task, even when it
      lost the race for the escrow. */
  function ReleaseHeld(c: Case, h: HandlerId, doer: Option<UserId>, cause: Cause, now: Time): (u: Update)
    ensures u.matched <==> IsHeld(c)
  {
    var stamped := if cause.ByConfirm? then WriteConfirmed(c, now) else c;
    if IsHeld(c) then
      var moved := MoveEscrow(stamped, Released);
      Update(moved.(escrow := Some(if doer.Some? then moved.escrow.value.(doerId := doer) else moved.escrow.value),
                    trail := moved.trail.(releases := moved.trail.releases + 1, releasedTo := doer,
                                          releaser := Some(h))), true)
    else Update(stamped, false)
  }

  function InsertPayout(c: Case, doer: UserId, amount: int): Update {
    if c.payout.Some? then Update(c, false)
    else Update(c.(payout := Some(Payout(doer, amount, PayoutPending))), true)
  }

  function DispatchPayout(c: Case): Case {
    c.(trail := c.trail.(dispatches := c.trail.dispatches + 1))
  }

  function SetPayout(c: Case, status: PayoutStatus): Case {
    if c.payout.None? then c else c.(payout := Some(c.payout.value.(status := status)))
  }

  function EmitReleased(c: Case): Case {
    c.(trail := c.trail.(paidEvents := c.trail.paidEvents + 1))
  }

  /** The cancel transaction; a lost race rolls everything back. */
  function CancelTask(c: Case, mode: PaymentMode): Update {
    if Cancellable(c.task.status) then
      var cancelled := c.(task := c.task.(status := Cancelled),
                          trail := c.trail.(cancels := c.trail.cancels + 1));
      Update(if mode == EscrowMode && IsHeld(c) then MoveEscrow(cancelled, RefundPending)
             else cancelled, true)
    else Update(c, false)
  }

  // --- Refunds ---

  function ClaimEscrow(c: Case): Update {
    if c.escrow.Some? && (c.escrow.value.status == Held || c.escrow.value.status == EscrowDisputed) then
      Update(MoveEscrow(c, RefundPending), true)
    else Update(c, false)
  }

  function InsertRefund(c: Case, amount: int, reason: RefundReason): Update {
    if c.refund.Some? then Update(c, false)
    else Update(c.(refund := Some(Refund(amount, reason, Queued, 0))), true)
  }

  function ClaimRefund(c: Case, h: HandlerId): Update {
    if c.refund.Some? && (c.refund.value.status == Queued || c.refund.value.status == RefundFailed) then
      Update(c.(refund := Some(c.refund.value.(status := Processing, attempts := c.refund.value.attempts + 1)),
                trail := c.trail.(executor := Some(h))), true)
    else Update(c, false)
  }

  /** The provider call itself; no row changes. */
  function CallProvider(c: Case, success: bool): Case {
    c.(trail := c.trail.(calls := c.trail.calls + 1,
                         successes := c.trail.successes + (if success then 1 else 0)))
  }

  function FinishRefund(c: Case): Case {
    if c.refund.None? then c else
    MoveEscrow(c, Refunded).(refund := Some(c.refund.value.(status := RefundDone)))
  }

  function FailRefund(c: Case): Case {
    if c.refund.None? then c else c.(refund := Some(c.refund.value.(status := RefundFailed)))
  }

  // --- Disputes ---

  /** One transaction: it fails as a whole when the task already has a dispute, or when
      the escrow row it must update is missing. */
  function RaiseDispute(c: Case, user: UserId, mode: PaymentMode): Update {
    if c.dispute.Some? || (mode == EscrowMode && c.escrow.None?) then Update(c, false)
    else
      var disputed := c.(task := c.task.(status := TaskDisputed), dispute := Some(Dispute(user, DisputeOpen)));
      Update(if mode == EscrowMode then MoveEscrow(disputed, EscrowDisputed) else disputed, true)
  }

  function ResolveDispute(c: Case, sawEscrow: bool, refundPoster: bool): Case {
    if c.dispute.None? || (sawEscrow && c.escrow.None?) then c else
    var resolved := c.(task := c.task.(status := Completed),
                       dispute := Some(c.dispute.value.(status := DisputeResolved)),
                       trail := c.trail.(verdict := Some(refundPoster)));
    if sawEscrow then MoveEscrow(resolved, if refundPoster then Refunded else Released)
    else resolved
  }
}
