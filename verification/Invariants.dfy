/** What holds of the rows of a task between any two statements of any handlers, what a
    handler may rely on at each of its program points, and what a step of one handler
    guarantees to the others. */
module Invariants {
  import opened Wrappers
  import opened Rows
  import opened Handlers
  import Fees
  import Orders

  // --- The rows of one task ---

  /** The money has been captured and can never be HELD again. */
  predicate HeldIsOver(c: Case) {
    c.escrow.Some? && c.escrow.value.status != Pending && c.escrow.value.status != Held
  }

  predicate Early(s: TaskStatus) {
    s == PendingPayment || s == Cancelled
  }

  predicate HasDoer(s: TaskStatus) {
    s == Assigned || s == InProgress || s == Completed || s == TaskDisputed
  }

  /** An escrow or posting fee is unpaid only before the task opened, and a task that
      was cancelled before it opened stays cancelled. */
  ghost predicate FundingInv(c: Case) {
    && (c.escrow.Some? ==> c.task.mode == EscrowMode)
    && (c.fee.Some? ==> c.task.mode == CashMode)
    && c.trail.opens <= 1
    && (c.trail.opens == 0 ==> Early(c.task.status))
    && (c.task.status == PendingPayment ==> c.trail.opens == 0)
    && (c.trail.opens == 0 ==> (c.task.status == Cancelled <==> c.trail.cancels > 0))
    && (c.trail.opens == 1 && c.task.mode == EscrowMode ==> c.escrow.Some? && c.escrow.value.status != Pending)
    && (c.trail.opens == 1 && c.task.mode == CashMode ==> c.fee.Some? && c.fee.value.status == FeePaid)
    && (c.trail.opens == 0 && c.fee.Some? ==> c.fee.value.status != FeePaid)
    && (c.task.status == PendingPayment && c.escrow.Some? ==> c.escrow.value.status == Pending)
    && (c.task.status == PendingPayment && c.fee.Some? ==> c.fee.value.status == FeePending)
  }

  /** The amounts are those of the budget, and a payment id is there only when the money is. */
  ghost predicate PaymentInv(c: Case) {
    && (c.escrow.Some? ==>
        && Fees.IsSplit(c.escrow.value.amounts)
        && c.escrow.value.amounts.budget == c.task.budget
        && (c.escrow.value.paymentId.Some? ==> c.escrow.value.status != Pending)
        && (c.escrow.value.orderId == None || c.escrow.value.orderId == Some(Orders.EscrowOrder(c.task.uuid))))
    && (c.fee.Some? ==>
        && c.fee.value.amount == POSTING_FEE
        && (c.fee.value.paymentId.Some? ==> c.fee.value.status != FeePending)
        && (c.fee.value.orderId == None || c.fee.value.orderId == Some(Orders.FeeOrder(c.task.uuid))))
  }

  /** HELD is entered at most once and left at most once. */
  ghost predicate HeldInv(c: Case) {
    && c.trail.heldExits <= c.trail.heldEntries <= 1
    && (c.escrow.None? ==> c.trail.heldEntries == 0)
    && (c.escrow.Some? && c.escrow.value.status == Pending ==> c.trail.heldEntries == 0)
    && (IsHeld(c) <==> c.trail.heldEntries == 1 && c.trail.heldExits == 0)
    && (IsHeld(c) ==> c.trail.cancels == 0 && c.task.status != Cancelled && c.dispute.None?)
  }

  ghost predicate ReleaseInv(c: Case) {
    && c.trail.releases <= c.trail.heldExits
    && (c.trail.releases == 1 ==> c.escrow.Some? && c.task.doerId.Some? && c.trail.releasedTo == c.task.doerId)
    && (EscrowIs(c, Released) ==> c.task.doerId.Some?)
    && (c.trail.releases == 1 <==> c.escrow.Some? && c.escrow.value.doerId.Some?)
    && (c.payout.Some? ==>
        c.trail.releases == 1 && Earned(c) == Some(Transfer(Some(c.payout.value.doerId), c.payout.value.amount)))
    && c.trail.dispatches <= c.trail.releases && c.trail.paidEvents <= c.trail.releases
    && (c.trail.dispatches == 1 ==> c.payout.Some?)
  }

  /** What the assigned doer is due. */
  function Earned(c: Case): Option<Transfer> {
    if c.escrow.Some? && c.task.doerId.Some?
    then Some(Transfer(c.task.doerId, c.escrow.value.amounts.netPayout)) else None
  }

  ghost predicate RefundInv(c: Case) {
    && (c.refund.None? ==> c.trail.calls == 0 && c.trail.successes == 0)
    && (c.refund.Some? ==>
        && HeldIsOver(c) && c.escrow.value.paymentId.Some?
        && c.refund.value.amount == Charge(c.escrow.value)
        && c.trail.successes <= c.trail.calls <= c.refund.value.attempts
        && c.trail.successes <= 1
        && (c.trail.successes == 1 ==> c.refund.value.status == Processing || c.refund.value.status == RefundDone)
        && (c.refund.value.status == RefundDone ==> c.trail.successes == 1))
    && (c.escrow.Some? && c.escrow.value.status == Refunded ==> RefundJustified(c))
    && (c.trail.verdict.Some? <==> c.dispute.Some? && c.dispute.value.status == DisputeResolved)
  }

  predicate RefundJustified(c: Case) {
    || (c.refund.Some? && c.refund.value.status == RefundDone)
    || (c.dispute.Some? && c.dispute.value.status == DisputeResolved && c.trail.verdict == Some(true))
  }

  ghost predicate AssignmentInv(c: Case) {
    && (c.task.doerId.Some? ==> c.trail.opens == 1 && c.task.doerId != Some(c.task.posterId))
    && (c.task.status == Open || c.task.status == PendingPayment ==> c.task.doerId.None?)
    && (HasDoer(c.task.status) ==> c.task.doerId.Some?)
    && (c.task.status == TaskDisputed ==> c.dispute.Some?)
    && c.trail.accepted <= (if c.task.doerId.Some? then 1 else 0)
    && c.trail.announced <= c.trail.opens
    && (c.dispute.Some? ==> c.task.doerId.Some?)
    && (c.task.status == Completed ==> c.trail.completions != {} || c.dispute.Some?)
    && (c.task.completedAt.Some? ==>
        c.task.doerId.Some? && Completion(c.task.doerId.value, c.task.completedAt.value) in c.trail.completions)
    && (forall k :: k in c.trail.completions ==> Some(k.doer) == c.task.doerId)
  }

  ghost predicate CaseInv(c: Case) {
    FundingInv(c) && PaymentInv(c) && HeldInv(c) && ReleaseInv(c) && RefundInv(c) && AssignmentInv(c)
  }

  // --- What a handler relies on ---

  /** `e` is a later version of the escrow row `seen`. */
  predicate Follows(seen: Escrow, c: Case) {
    && c.escrow.Some?
    && seen.amounts == c.escrow.value.amounts
    && (seen.paymentId.Some? ==> seen.status != Pending)
    && (seen.status != Pending ==> c.escrow.value.status != Pending && c.escrow.value.paymentId == seen.paymentId)
  }

  /** A release with this cause is justified, or can no longer happen. */
  ghost predicate CauseInv(c: Case, worker: Option<UserId>, cause: Cause, now: Time) {
    && c.task.doerId.Some? && worker == c.task.doerId
    && match cause
       case ByConfirm(user) => user == c.task.posterId && (c.trail.completions != {} || c.dispute.Some?)
       case ByAuto(scan, completedAt) =>
         && Completion(c.task.doerId.value, completedAt) in c.trail.completions
         && completedAt + AUTO_RELEASE_AFTER <= scan <= now
  }

  predicate WonRelease(h: HandlerId, c: Case) {
    c.trail.releases == 1 && c.trail.releaser == Some(h) && c.trail.paidEvents == 0
  }

  predicate Owns(h: HandlerId, c: Case) {
    c.refund.Some? && c.refund.value.status == Processing && c.trail.executor == Some(h)
  }

  ghost predicate PcInv(h: HandlerId, c: Case, pc: Pc, now: Time) {
    match pc
    case InsertMoney(split) => Fees.IsSplit(split) && split.budget == c.task.budget
    case WriteEscrowOrder => c.escrow.Some?
    case ReadFee => true
    case WriteFeeOrder => c.fee.Some?
    case FundEscrow(seen, _) => c.escrow.Some?
    case FundFee(_, _) => c.fee.Some?
    case Announce => c.trail.opens == 1 && c.trail.announcer == Some(h) && c.trail.announced == 0
    case CheckProfile(doer, _, mode) => doer != c.task.posterId
    case CheckFunds(doer) => doer != c.task.posterId
    case Assign(doer) => doer != c.task.posterId
    case EmitAccept(doer) => c.task.doerId == Some(doer) && c.trail.acceptor == Some(h) && c.trail.accepted == 0
    case MarkStarted => c.task.doerId.Some?
    case MarkCompleted(doer) => c.task.doerId == Some(doer)
    case CheckHeld(user, worker) => CauseInv(c, worker, ByConfirm(user), now)
    case MarkConfirmed => true
    case ReleaseFunds(worker, cause) => CauseInv(c, worker, cause, now)
    case ReadReleased(worker) => WonRelease(h, c) && c.trail.dispatches == 0 && worker == c.task.doerId
    case LookupPayout(doer, amount) =>
      WonRelease(h, c) && c.trail.dispatches == 0 && Earned(c) == Some(Transfer(Some(doer), amount))
    case CreatePayout(doer, amount) =>
      WonRelease(h, c) && c.trail.dispatches == 0 && Earned(c) == Some(Transfer(Some(doer), amount))
    case Dispatch(doer, amount) =>
      WonRelease(h, c) && c.trail.dispatches == 0 && c.payout.Some? && Earned(c) == Some(Transfer(Some(doer), amount))
    case SettlePayout(doer, amount) =>
      WonRelease(h, c) && c.payout.Some? && Earned(c) == Some(Transfer(Some(doer), amount))
    case EmitRelease(worker, amount) => WonRelease(h, c) && Earned(c) == Some(Transfer(worker, amount))
    case PayPayout => c.payout.Some?
    case CancelFunds(mode) => mode == c.task.mode
    case ReadCancelled => true
    case StartRefund(_) => c.escrow.Some?
    case LookupRefund(_, seen) => Follows(seen, c)
    case ClaimFunds(_, seen) => Follows(seen, c) && Refundable(seen.status) && seen.paymentId.Some?
    case CreateRefund(_, seen) => Follows(seen, c) && seen.paymentId.Some? && HeldIsOver(c)
    case RereadRefund => c.refund.Some?
    case ReadRefund => c.refund.Some?
    case QueueRefund => c.refund.Some?
    case ClaimExecution(payment) => c.refund.Some? && c.escrow.Some? && c.escrow.value.paymentId == Some(payment)
    case CallRefund(payment) =>
      Owns(h, c) && c.escrow.Some? && c.escrow.value.paymentId == Some(payment)
      && c.trail.calls < c.refund.value.attempts && c.trail.successes == 0
    case RecordRefund(success) => Owns(h, c) && c.trail.successes == (if success then 1 else 0)
    case DisputeFunds(_, mode) => c.task.doerId.Some? && mode == c.task.mode
    case SettleDispute(sawEscrow, _) => c.dispute.Some? && sawEscrow == c.escrow.Some?
  }

  // --- What a step guarantees ---

  /** How a step of handler `h` may change the rows of a task. */
  ghost predicate Guarantee(h: HandlerId, c: Case, d: Case) {
    && TaskGuarantee(h, c, d)
    && EscrowGuarantee(c, d)
    && ReleaseGuarantee(h, c, d)
    && RefundGuarantee(h, c, d)
  }

  ghost predicate TaskGuarantee(h: HandlerId, c: Case, d: Case) {
    && d.task.uuid == c.task.uuid && d.task.posterId == c.task.posterId
    && d.task.budget == c.task.budget && d.task.mode == c.task.mode
    && (c.task.doerId.Some? ==> d.task.doerId == c.task.doerId && d.trail.acceptor == c.trail.acceptor)
    && c.trail.opens <= d.trail.opens && c.trail.cancels <= d.trail.cancels
    && (c.trail.opens == 1 ==> d.trail.opens == 1 && d.trail.announcer == c.trail.announcer)
    && c.trail.announced <= d.trail.announced
    && (d.trail.announced != c.trail.announced ==> c.trail.announcer == Some(h))
    && c.trail.accepted <= d.trail.accepted
    && (d.trail.accepted != c.trail.accepted ==> c.trail.acceptor == Some(h))
    && c.trail.completions <= d.trail.completions
    && (c.dispute.Some? ==> d.dispute.Some? && d.dispute.value.raisedBy == c.dispute.value.raisedBy)
    && (c.fee.Some? ==> d.fee.Some? && d.fee.value.amount == c.fee.value.amount)
    && (c.fee.Some? && c.fee.value.status != FeePending ==>
        d.fee.value.status == c.fee.value.status && d.fee.value.paymentId == c.fee.value.paymentId)
  }

  ghost predicate EscrowGuarantee(c: Case, d: Case) {
    && (c.escrow.Some? ==> d.escrow.Some? && d.escrow.value.amounts == c.escrow.value.amounts)
    && (c.escrow.Some? && c.escrow.value.status != Pending ==>
        d.escrow.value.status != Pending && d.escrow.value.paymentId == c.escrow.value.paymentId)
    && (HeldIsOver(c) ==> HeldIsOver(d))
    && (c.escrow.None? && d.escrow.Some? ==> d.escrow.value.status == Pending)
  }

  ghost predicate ReleaseGuarantee(h: HandlerId, c: Case, d: Case) {
    && c.trail.releases <= d.trail.releases
    && (c.trail.releases == 1 ==> d.trail.releases == 1 && d.trail.releaser == c.trail.releaser)
    && c.trail.dispatches <= d.trail.dispatches && c.trail.paidEvents <= d.trail.paidEvents
    && (d.trail.dispatches != c.trail.dispatches || d.trail.paidEvents != c.trail.paidEvents ==>
        c.trail.releaser == Some(h))
    && (c.payout.Some? ==>
        && d.payout.Some?
        && d.payout.value.doerId == c.payout.value.doerId && d.payout.value.amount == c.payout.value.amount)
  }

  ghost predicate RefundGuarantee(h: HandlerId, c: Case, d: Case) {
    && (c.refund.Some? ==>
        && d.refund.Some? && d.refund.value.amount == c.refund.value.amount
        && d.refund.value.reason == c.refund.value.reason
        && c.refund.value.attempts <= d.refund.value.attempts
        && (c.refund.value.status == RefundDone ==> d.refund == c.refund))
    && c.trail.calls <= d.trail.calls && c.trail.successes <= d.trail.successes
    && (c.refund.Some? && c.refund.value.status == Processing && c.trail.executor != Some(h) ==>
        && d.refund == c.refund && d.trail.executor == c.trail.executor
        && d.trail.calls == c.trail.calls && d.trail.successes == c.trail.successes)
  }

  // --- The statements, one at a time ---

  /** A step of handler `h` from `c` to `d` keeps the invariant and its promises. */
  ghost predicate Keeps(h: HandlerId, c: Case, d: Case) {
    CaseInv(d) && Guarantee(h, c, d)
  }

  lemma InsertMoneyRowKeeps(h: HandlerId, c: Case, s: Fees.Split)
    requires CaseInv(c) && Fees.IsSplit(s) && s.budget == c.task.budget
    ensures Keeps(h, c, InsertMoneyRow(c, s))
  {
  }

  lemma SetEscrowOrderKeeps(h: HandlerId, c: Case)
    requires CaseInv(c)
    ensures Keeps(h, c, SetEscrowOrder(c))
  {
  }

  lemma SetFeeOrderKeeps(h: HandlerId, c: Case)
    requires CaseInv(c)
    ensures Keeps(h, c, SetFeeOrder(c))
  {
  }

  lemma ApplyEscrowPaymentKeeps(h: HandlerId, c: Case, payment: Option<PaymentId>)
    requires CaseInv(c) && c.escrow.Some?
    ensures Keeps(h, c, ApplyEscrowPayment(c, h, payment).rows)
    ensures ApplyEscrowPayment(c, h, payment).outcome.HookOpened? ==>
              PcInv(h, ApplyEscrowPayment(c, h, payment).rows, Announce, 0)
  {
    if c.escrow.value.status != Pending {
    } else if c.task.status == PendingPayment {
    } else if c.task.status == Cancelled {
    } else {
    }
  }

  lemma ApplyFeePaymentKeeps(h: HandlerId, c: Case, payment: Option<PaymentId>)
    requires CaseInv(c) && c.fee.Some?
    ensures Keeps(h, c, ApplyFeePayment(c, h, payment).rows)
    ensures ApplyFeePayment(c, h, payment).outcome.HookOpened? ==>
              PcInv(h, ApplyFeePayment(c, h, payment).rows, Announce, 0)
  {
  }

  lemma EmitPostedKeeps(h: HandlerId, c: Case)
    requires CaseInv(c) && PcInv(h, c, Announce, 0)
    ensures Keeps(h, c, EmitPosted(c))
  {
  }

  lemma AssignDoerKeeps(h: HandlerId, c: Case, doer: UserId)
    requires CaseInv(c) && doer != c.task.posterId
    ensures Keeps(h, c, AssignDoer(c, h, doer).rows)
    ensures AssignDoer(c, h, doer).matched ==> PcInv(h, AssignDoer(c, h, doer).rows, EmitAccept(doer), 0)
  {
  }

  lemma EmitAcceptedKeeps(h: HandlerId, c: Case)
    requires CaseInv(c) && c.task.doerId.Some? && c.trail.acceptor == Some(h) && c.trail.accepted == 0
    ensures Keeps(h, c, EmitAccepted(c))
  {
  }

  lemma WriteStartedKeeps(h: HandlerId, c: Case)
    requires CaseInv(c) && c.task.doerId.Some?
    ensures Keeps(h, c, WriteStarted(c))
  {
  }

  lemma WriteCompletedKeeps(h: HandlerId, c: Case, doer: UserId, now: Time)
    requires CaseInv(c) && c.task.doerId == Some(doer)
    ensures Keeps(h, c, WriteCompleted(c, doer, now))
  {
  }

  lemma WriteConfirmedKeeps(h: HandlerId, c: Case, now: Time)
    requires CaseInv(c)
    ensures Keeps(h, c, WriteConfirmed(c, now))
  {
  }

  lemma ReleaseHeldKeeps(h: HandlerId, c: Case, worker: Option<UserId>, cause: Cause, now: Time)
    requires CaseInv(c) && CauseInv(c, worker, cause, now)
    ensures Keeps(h, c, ReleaseHeld(c, h, worker, cause, now).rows)
    ensures ReleaseHeld(c, h, worker, cause, now).matched ==>
              PcInv(h, ReleaseHeld(c, h, worker, cause, now).rows, ReadReleased(worker), now)
  {
    if IsHeld(c) {
    } else {
    }
  }

  lemma InsertPayoutKeeps(h: HandlerId, c: Case, doer: UserId, amount: int)
    requires CaseInv(c) && WonRelease(h, c) && Earned(c) == Some(Transfer(Some(doer), amount))
    ensures Keeps(h, c, InsertPayout(c, doer, amount).rows)
  {
  }

  lemma DispatchPayoutKeeps(h: HandlerId, c: Case)
    requires CaseInv(c) && WonRelease(h, c) && c.trail.dispatches == 0 && c.payout.Some?
    ensures Keeps(h, c, DispatchPayout(c))
  {
  }

  lemma SetPayoutKeeps(h: HandlerId, c: Case, status: PayoutStatus)
    requires CaseInv(c)
    ensures Keeps(h, c, SetPayout(c, status))
  {
  }

  lemma EmitReleasedKeeps(h: HandlerId, c: Case)
    requires CaseInv(c) && WonRelease(h, c)
    ensures Keeps(h, c, EmitReleased(c))
  {
  }

  lemma CancelTaskKeeps(h: HandlerId, c: Case)
    requires CaseInv(c)
    ensures Keeps(h, c, CancelTask(c, c.task.mode).rows)
  {
    if !Cancellable(c.task.status) {
    } else if IsHeld(c) {
    } else {
    }
  }

  lemma ClaimEscrowKeeps(h: HandlerId, c: Case)
    requires CaseInv(c)
    ensures Keeps(h, c, ClaimEscrow(c).rows)
    ensures c.escrow.Some? && c.escrow.value.status != Pending ==> HeldIsOver(ClaimEscrow(c).rows)
  {
    if IsHeld(c) {
    } else if c.escrow.Some? && c.escrow.value.status == EscrowDisputed {
    } else {
    }
  }

  lemma InsertRefundKeeps(h: HandlerId, c: Case, reason: RefundReason)
    requires CaseInv(c) && HeldIsOver(c) && c.escrow.value.paymentId.Some?
    ensures Keeps(h, c, InsertRefund(c, Charge(c.escrow.value), reason).rows)
  {
  }

  lemma ClaimRefundKeeps(h: HandlerId, c: Case)
    requires CaseInv(c)
    ensures Keeps(h, c, ClaimRefund(c, h).rows)
    ensures var u := ClaimRefund(c, h);
            u.matched ==>
              Owns(h, u.rows) && u.rows.trail.calls < u.rows.refund.value.attempts && u.rows.trail.successes == 0
  {
    if !ClaimRefund(c, h).matched {
      assert ClaimRefund(c, h).rows == c;
    }
  }

  lemma CallProviderKeeps(h: HandlerId, c: Case, success: bool)
    requires CaseInv(c) && Owns(h, c) && c.trail.calls < c.refund.value.attempts && c.trail.successes == 0
    ensures Keeps(h, c, CallProvider(c, success))
  {
  }

  lemma FinishRefundKeeps(h: HandlerId, c: Case)
    requires CaseInv(c) && Owns(h, c) && c.trail.successes == 1
    ensures Keeps(h, c, FinishRefund(c))
  {
  }

  lemma FailRefundKeeps(h: HandlerId, c: Case)
    requires CaseInv(c) && Owns(h, c) && c.trail.successes == 0
    ensures Keeps(h, c, FailRefund(c))
  {
  }

  lemma RaiseDisputeKeeps(h: HandlerId, c: Case, user: UserId)
    requires CaseInv(c) && c.task.doerId.Some?
    ensures Keeps(h, c, Rows.RaiseDispute(c, user, c.task.mode).rows)
  {
    if c.dispute.Some? {
    } else if IsHeld(c) {
    } else {
    }
  }

  lemma ResolveDisputeKeepsMoney(c: Case, refundPoster: bool)
    requires CaseInv(c) && c.dispute.Some?
    ensures var d := Rows.ResolveDispute(c, c.escrow.Some?, refundPoster);
            FundingInv(d) && PaymentInv(d) && HeldInv(d) && ReleaseInv(d)
  {
    hide RefundInv;
  }

  lemma ResolveDisputeKeeps(h: HandlerId, c: Case, refundPoster: bool)
    requires CaseInv(c) && c.dispute.Some?
    ensures Keeps(h, c, Rows.ResolveDispute(c, c.escrow.Some?, refundPoster))
  {
    ResolveDisputeKeepsMoney(c, refundPoster);
    hide PaymentInv, ReleaseInv;
  }

  // --- The steps ---

  /** What one step must establish. */
  ghost predicate StepOk(h: HandlerId, c: Case, o: Outcome, now: Time) {
    Keeps(h, c, o.rows) && (o.next.Some? ==> PcInv(h, o.rows, o.next.value, now))
  }

  /** The program points whose statement only reads. */
  predicate OnlyReads(pc: Pc) {
    pc.ReadFee? || pc.CheckProfile? || pc.CheckFunds? || pc.CheckHeld? || pc.QueueRefund?
  }

  predicate OnlyReadsMoney(pc: Pc) {
    pc.ReadReleased? || pc.LookupPayout? || pc.ReadCancelled? || pc.StartRefund? || pc.LookupRefund?
    || pc.RereadRefund? || pc.ReadRefund?
  }

  predicate IsClaimPoint(pc: Pc) {
    pc.ClaimFunds? || pc.CreateRefund? || pc.ClaimExecution?
  }

  predicate IsProviderPoint(pc: Pc) {
    pc.CallRefund? || pc.RecordRefund?
  }

  predicate IsPayoutPoint(pc: Pc) {
    pc.CreatePayout? || pc.Dispatch?
  }

  predicate IsPaidPoint(pc: Pc) {
    pc.SettlePayout? || pc.EmitRelease? || pc.PayPayout?
  }

  lemma NothingKeeps(h: HandlerId, c: Case)
    requires CaseInv(c)
    ensures Keeps(h, c, c)
  {
  }

  lemma ReadStep(h: HandlerId, c: Case, pc: Pc, i: Input)
    requires CaseInv(c) && PcInv(h, c, pc, i.now) && OnlyReads(pc)
    ensures StepOk(h, c, Advance(h, c, pc, i), i.now)
  {
    NothingKeeps(h, c);
    assert Advance(h, c, pc, i).rows == c;
    hide Keeps;
    hide FundingInv, PaymentInv, HeldInv, ReleaseInv, RefundInv, AssignmentInv;
    hide TaskGuarantee, EscrowGuarantee, ReleaseGuarantee, RefundGuarantee;
  }

  lemma ReadReleasedStep(h: HandlerId, c: Case, pc: Pc, i: Input)
    requires CaseInv(c) && PcInv(h, c, pc, i.now) && (pc.ReadReleased? || pc.LookupPayout?)
    ensures StepOk(h, c, Advance(h, c, pc, i), i.now)
  {
    NothingKeeps(h, c);
    hide Keeps;
    hide FundingInv, HeldInv, ReleaseInv, RefundInv, AssignmentInv;
    hide TaskGuarantee, EscrowGuarantee, ReleaseGuarantee, RefundGuarantee;
  }

  lemma ReadCancelledStep(h: HandlerId, c: Case, pc: Pc, i: Input)
    requires CaseInv(c) && PcInv(h, c, pc, i.now) && (pc.ReadCancelled? || pc.StartRefund?)
    ensures StepOk(h, c, Advance(h, c, pc, i), i.now)
  {
    NothingKeeps(h, c);
    hide Keeps;
    hide FundingInv, HeldInv, ReleaseInv, RefundInv, AssignmentInv;
    hide TaskGuarantee, EscrowGuarantee, ReleaseGuarantee, RefundGuarantee;
  }

  lemma LookupRefundStep(h: HandlerId, c: Case, pc: Pc, i: Input)
    requires CaseInv(c) && PcInv(h, c, pc, i.now) && pc.LookupRefund?
    ensures StepOk(h, c, Advance(h, c, pc, i), i.now)
  {
    NothingKeeps(h, c);
    hide Keeps;
    hide FundingInv, HeldInv, ReleaseInv, RefundInv, AssignmentInv;
    hide TaskGuarantee, EscrowGuarantee, ReleaseGuarantee, RefundGuarantee;
  }

  lemma ReadRefundStep(h: HandlerId, c: Case, pc: Pc, i: Input)
    requires CaseInv(c) && PcInv(h, c, pc, i.now) && (pc.RereadRefund? || pc.ReadRefund?)
    ensures StepOk(h, c, Advance(h, c, pc, i), i.now)
  {
    NothingKeeps(h, c);
    hide Keeps;
    hide FundingInv, HeldInv, ReleaseInv, RefundInv, AssignmentInv;
    hide TaskGuarantee, EscrowGuarantee, ReleaseGuarantee, RefundGuarantee;
  }

  lemma ClaimStep(h: HandlerId, c: Case, pc: Pc, i: Input)
    requires CaseInv(c) && PcInv(h, c, pc, i.now) && IsClaimPoint(pc)
    ensures StepOk(h, c, Advance(h, c, pc, i), i.now)
  {
    hide FundingInv, PaymentInv, HeldInv, ReleaseInv, RefundInv, AssignmentInv;
    hide TaskGuarantee, EscrowGuarantee, ReleaseGuarantee, RefundGuarantee;
    if pc.ClaimExecution? {
      ClaimRefundKeeps(h, c);
    } else {
      CreateStep(h, c, pc, i);
    }
  }

  lemma CreateStep(h: HandlerId, c: Case, pc: Pc, i: Input)
    requires CaseInv(c) && PcInv(h, c, pc, i.now) && (pc.ClaimFunds? || pc.CreateRefund?)
    ensures StepOk(h, c, Advance(h, c, pc, i), i.now)
  {
    hide FundingInv, PaymentInv, HeldInv, ReleaseInv, RefundInv, AssignmentInv;
    hide TaskGuarantee, EscrowGuarantee, ReleaseGuarantee, RefundGuarantee;
    if pc.ClaimFunds? {
      ClaimEscrowKeeps(h, c);
    } else {
      InsertRefundKeeps(h, c, pc.reason);
    }
  }

  lemma ProviderStep(h: HandlerId, c: Case, pc: Pc, i: Input)
    requires CaseInv(c) && PcInv(h, c, pc, i.now) && IsProviderPoint(pc)
    ensures StepOk(h, c, Advance(h, c, pc, i), i.now)
  {
    hide FundingInv, PaymentInv, HeldInv, ReleaseInv, RefundInv, AssignmentInv;
    hide TaskGuarantee, EscrowGuarantee, ReleaseGuarantee, RefundGuarantee;
    match pc
    case CallRefund(_) => CallProviderKeeps(h, c, i.success);
    case RecordRefund(success) =>
      if success { FinishRefundKeeps(h, c); } else { FailRefundKeeps(h, c); }
  }

  lemma ReleaseStep(h: HandlerId, c: Case, pc: Pc, i: Input)
    requires CaseInv(c) && PcInv(h, c, pc, i.now) && pc.ReleaseFunds?
    ensures StepOk(h, c, Advance(h, c, pc, i), i.now)
  {
    hide FundingInv, PaymentInv, HeldInv, ReleaseInv, RefundInv, AssignmentInv;
    hide TaskGuarantee, EscrowGuarantee, ReleaseGuarantee, RefundGuarantee;
    ReleaseHeldKeeps(h, c, pc.worker, pc.cause, i.now);
  }

  lemma PayoutStep(h: HandlerId, c: Case, pc: Pc, i: Input)
    requires CaseInv(c) && PcInv(h, c, pc, i.now) && IsPayoutPoint(pc)
    ensures StepOk(h, c, Advance(h, c, pc, i), i.now)
  {
    hide FundingInv, PaymentInv, HeldInv, ReleaseInv, RefundInv, AssignmentInv;
    hide TaskGuarantee, EscrowGuarantee, ReleaseGuarantee, RefundGuarantee;
    match pc
    case CreatePayout(doer, amount) => InsertPayoutKeeps(h, c, doer, amount);
    case Dispatch(_, _) => DispatchPayoutKeeps(h, c);
  }

  lemma PaidStep(h: HandlerId, c: Case, pc: Pc, i: Input)
    requires CaseInv(c) && PcInv(h, c, pc, i.now) && IsPaidPoint(pc)
    ensures StepOk(h, c, Advance(h, c, pc, i), i.now)
  {
    hide FundingInv, PaymentInv, HeldInv, ReleaseInv, RefundInv, AssignmentInv;
    hide TaskGuarantee, EscrowGuarantee, ReleaseGuarantee, RefundGuarantee;
    match pc
    case SettlePayout(_, _) => SetPayoutKeeps(h, c, PayoutPending);
    case EmitRelease(_, _) => EmitReleasedKeeps(h, c);
    case PayPayout => SetPayoutKeeps(h, c, PayoutPaid);
  }

  lemma TaskStep(h: HandlerId, c: Case, pc: Pc, i: Input)
    requires CaseInv(c) && PcInv(h, c, pc, i.now) && !OnlyReads(pc) && !OnlyReadsMoney(pc) && !IsClaimPoint(pc)
          && !IsProviderPoint(pc) && !pc.ReleaseFunds? && !IsPayoutPoint(pc) && !IsPaidPoint(pc)
    ensures StepOk(h, c, Advance(h, c, pc, i), i.now)
  {
    hide FundingInv, PaymentInv, HeldInv, ReleaseInv, RefundInv, AssignmentInv;
    hide TaskGuarantee, EscrowGuarantee, ReleaseGuarantee, RefundGuarantee;
    match pc
    case InsertMoney(split) => InsertMoneyRowKeeps(h, c, split);
    case WriteEscrowOrder => SetEscrowOrderKeeps(h, c);
    case WriteFeeOrder => SetFeeOrderKeeps(h, c);
    case FundEscrow(_, payment) => ApplyEscrowPaymentKeeps(h, c, payment);
    case FundFee(_, payment) => ApplyFeePaymentKeeps(h, c, payment);
    case Announce => EmitPostedKeeps(h, c);
    case Assign(doer) => AssignDoerKeeps(h, c, doer);
    case EmitAccept(_) => EmitAcceptedKeeps(h, c);
    case MarkStarted => WriteStartedKeeps(h, c);
    case MarkCompleted(doer) => WriteCompletedKeeps(h, c, doer, i.now);
    case MarkConfirmed => WriteConfirmedKeeps(h, c, i.now);
    case CancelFunds(_) => CancelTaskKeeps(h, c);
    case DisputeFunds(user, _) => RaiseDisputeKeeps(h, c, user);
    case SettleDispute(_, refundPoster) => ResolveDisputeKeeps(h, c, refundPoster);
  }

  /** Every statement of every handler keeps the invariant of its rows, keeps its promises
      to the other handlers, and leaves its own handler what the next statement needs. */
  lemma StepSound(h: HandlerId, c: Case, pc: Pc, i: Input)
    requires CaseInv(c) && PcInv(h, c, pc, i.now)
    ensures StepOk(h, c, Advance(h, c, pc, i), i.now)
  {
    if OnlyReads(pc) {
      ReadStep(h, c, pc, i);
    } else if pc.ReadReleased? || pc.LookupPayout? {
      ReadReleasedStep(h, c, pc, i);
    } else if pc.ReadCancelled? || pc.StartRefund? {
      ReadCancelledStep(h, c, pc, i);
    } else if pc.LookupRefund? {
      LookupRefundStep(h, c, pc, i);
    } else if pc.RereadRefund? || pc.ReadRefund? {
      ReadRefundStep(h, c, pc, i);
    } else if IsClaimPoint(pc) {
      ClaimStep(h, c, pc, i);
    } else if IsProviderPoint(pc) {
      ProviderStep(h, c, pc, i);
    } else if pc.ReleaseFunds? {
      ReleaseStep(h, c, pc, i);
    } else if IsPayoutPoint(pc) {
      PayoutStep(h, c, pc, i);
    } else if IsPaidPoint(pc) {
      PaidStep(h, c, pc, i);
    } else {
      TaskStep(h, c, pc, i);
    }
  }

  /** The checks of a request establish what its first statement relies on. */
  lemma BeginSound(h: HandlerId, c: Case, r: Request, now: Time)
    requires CaseInv(c) && Begin(c, r).Some?
    ensures PcInv(h, c, Begin(c, r).value, now)
  {
    hide PaymentInv, HeldInv, ReleaseInv, RefundInv;
  }

  /** What a handler relies on survives every step of any other handler. */
  lemma Stable(h: HandlerId, k: HandlerId, c: Case, d: Case, pc: Pc, now: Time, later: Time)
    requires h != k && now <= later
    requires CaseInv(c) && CaseInv(d) && Guarantee(k, c, d)
    requires PcInv(h, c, pc, now)
    ensures PcInv(h, d, pc, later)
  {
  }
}
