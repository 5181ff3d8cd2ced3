/** Request handlers as step machines.

    A program point `Pc` stands before one statement (or one transaction, or one
    provider call) and carries what the handler has read so far. `Begin` is the first
    read of a request and the checks made on it; `Advance` runs the statement at a
    program point and the checks that follow it. `None` means that the handler is over,
    whether it returned or threw. */
module Handlers {
  import opened Wrappers
  import opened Rows
  import Fees

  datatype Pc =
    | InsertMoney(split: Fees.Split)
    | WriteEscrowOrder
    | ReadFee
    | WriteFeeOrder
    | FundEscrow(seen: Escrow, carried: Option<PaymentId>)
    | FundFee(feeSeen: PostingFee, carried: Option<PaymentId>)
    | Announce
    | CheckProfile(doer: UserId, tier: Tier, mode: PaymentMode)
    | CheckFunds(doer: UserId)
    | Assign(doer: UserId)
    | EmitAccept(doer: UserId)
    | MarkStarted
    | MarkCompleted(doer: UserId)
    | CheckHeld(user: UserId, worker: Option<UserId>)
    | MarkConfirmed
    | ReleaseFunds(worker: Option<UserId>, cause: Cause)
    | ReadReleased(worker: Option<UserId>)
    | LookupPayout(doer: UserId, amount: int)
    | CreatePayout(doer: UserId, amount: int)
    | Dispatch(doer: UserId, amount: int)
    | SettlePayout(doer: UserId, amount: int)
    | EmitRelease(worker: Option<UserId>, amount: int)
    | PayPayout
    | CancelFunds(mode: PaymentMode)
    | ReadCancelled
    | StartRefund(reason: RefundReason)
    | LookupRefund(reason: RefundReason, seen: Escrow)
    | ClaimFunds(reason: RefundReason, seen: Escrow)
    | CreateRefund(reason: RefundReason, seen: Escrow)
    | RereadRefund
    | ReadRefund
    | QueueRefund
    | ClaimExecution(payment: PaymentId)
    | CallRefund(payment: PaymentId)
    | RecordRefund(success: bool)
    | DisputeFunds(user: UserId, mode: PaymentMode)
    | SettleDispute(sawEscrow: bool, refundPoster: bool)

  /** What a request asks for once it has been routed to a task. */
  datatype Request =
    | InitiatePayment(user: UserId)
    | Accept(doer: UserId)
    | Start(doer: UserId)
    | Complete(doer: UserId)
    | Confirm(user: UserId)
    | Cancel(user: UserId)
    | ForceCancel
    | RaiseDispute(user: UserId)
    | ResolveDispute(refundPoster: bool)
    | AdminRefund
    | RetryRefund
    | MarkPaid

  /** What a step reads outside the rows of its case: the clock, whether the provider is
      configured, the provider's answer, and the profile of the handler's doer. */
  datatype Input = Input(now: Time, configured: bool, success: bool, profile: Option<Profile>)

  datatype Outcome = Outcome(rows: Case, next: Option<Pc>)

  function StartCancel(c: Case): Option<Pc> {
    if Cancellable(c.task.status) then Some(CancelFunds(c.task.mode)) else None
  }

  function Begin(c: Case, r: Request): Option<Pc> {
    match r
    case InitiatePayment(user) =>
      if c.task.posterId != user then None
      else if c.task.mode == CashMode then Some(ReadFee)
      else if c.escrow.Some? && c.escrow.value.status == Pending then Some(WriteEscrowOrder)
      else None
    case Accept(doer) =>
      if c.task.status == Open && c.task.posterId != doer
      then Some(CheckProfile(doer, c.task.requiredTier, c.task.mode)) else None
    case Start(doer) =>
      if c.task.doerId == Some(doer) && c.task.status == Assigned then Some(MarkStarted) else None
    case Complete(doer) =>
      if c.task.doerId == Some(doer) && (c.task.status == Assigned || c.task.status == InProgress)
      then Some(MarkCompleted(doer)) else None
    case Confirm(user) =>
      if c.task.posterId != user || c.task.status != Completed then None
      else if c.task.mode == EscrowMode then Some(CheckHeld(user, c.task.doerId))
      else Some(MarkConfirmed)
    case Cancel(user) =>
      if c.task.posterId == user || c.task.doerId == Some(user) then StartCancel(c) else None
    case ForceCancel => StartCancel(c)
    case RaiseDispute(user) =>
      if (c.task.posterId == user || c.task.doerId == Some(user)) &&
         (c.task.status == Assigned || c.task.status == InProgress || c.task.status == Completed)
      then Some(DisputeFunds(user, c.task.mode)) else None
    case ResolveDispute(refundPoster) =>
      if c.dispute.Some? then Some(SettleDispute(c.escrow.Some?, refundPoster)) else None
    case AdminRefund =>
      if c.escrow.Some? && c.escrow.value.status != EscrowDisputed then Some(StartRefund(AdminReason)) else None
    case RetryRefund =>
      if c.refund.Some? && (c.refund.value.status == Queued || c.refund.value.status == RefundFailed)
      then Some(ReadRefund) else None
    case MarkPaid =>
      if c.payout.Some? then Some(PayPayout) else None
  }

  /** The check a notification makes on the escrow row it was routed to. */
  function BeginFunding(seen: Escrow, payment: Option<PaymentId>): Option<Pc> {
    if seen.status != Pending || (payment.Some? && seen.paymentId == payment) then None
    else Some(FundEscrow(seen, payment))
  }

  function BeginFeeFunding(seen: PostingFee, payment: Option<PaymentId>): Option<Pc> {
    if seen.status != FeePending || (payment.Some? && seen.paymentId == payment) then None
    else Some(FundFee(seen, payment))
  }

  /** After a refund row was read: nothing to do once it is completed or in flight. */
  function Execute(c: Case): Option<Pc> {
    if c.refund.Some? && (c.refund.value.status == Queued || c.refund.value.status == RefundFailed)
    then Some(ReadRefund) else None
  }

  function Advance(h: HandlerId, c: Case, pc: Pc, i: Input): Outcome {
    match pc
    case InsertMoney(split) => Outcome(InsertMoneyRow(c, split), None)

    case WriteEscrowOrder => Outcome(SetEscrowOrder(c), None)
    case ReadFee =>
      Outcome(c, if c.fee.Some? && c.fee.value.status == FeePending then Some(WriteFeeOrder) else None)
    case WriteFeeOrder => Outcome(SetFeeOrder(c), None)

    case FundEscrow(_, payment) =>
      var hooked := ApplyEscrowPayment(c, h, payment);
      Outcome(hooked.rows, match hooked.outcome
                           case HookOpened => Some(Announce)
                           case HookRefund => Some(StartRefund(CancelReason))
                           case HookHeldOnly => None)
    case FundFee(_, payment) =>
      var hooked := ApplyFeePayment(c, h, payment);
      Outcome(hooked.rows, if hooked.outcome == HookOpened then Some(Announce) else None)
    case Announce => Outcome(EmitPosted(c), None)

    case CheckProfile(doer, tier, mode) =>
      Outcome(c, if i.profile.None? || !i.profile.value.approved
                    || TierRank(i.profile.value.tier) < TierRank(tier) then None
                 else if mode == EscrowMode then Some(CheckFunds(doer)) else Some(Assign(doer)))
    case CheckFunds(doer) => Outcome(c, if IsHeld(c) then Some(Assign(doer)) else None)
    case Assign(doer) =>
      var u := AssignDoer(c, h, doer);
      Outcome(u.rows, if u.matched then Some(EmitAccept(doer)) else None)
    case EmitAccept(_) => Outcome(EmitAccepted(c), None)
    case MarkStarted => Outcome(WriteStarted(c), None)
    case MarkCompleted(doer) => Outcome(WriteCompleted(c, doer, i.now), None)

    case CheckHeld(user, worker) =>
      Outcome(c, if IsHeld(c) then Some(ReleaseFunds(worker, ByConfirm(user))) else None)
    case MarkConfirmed => Outcome(WriteConfirmed(c, i.now), None)
    case ReleaseFunds(worker, cause) =>
      var u := ReleaseHeld(c, h, worker, cause, i.now);
      Outcome(u.rows, if u.matched then Some(ReadReleased(worker)) else None)
    case ReadReleased(worker) =>
      var amount := if c.escrow.Some? then c.escrow.value.amounts.netPayout else 0;
      Outcome(c, if c.escrow.Some? && worker.Some? then Some(LookupPayout(worker.value, amount))
                 else Some(EmitRelease(worker, amount)))
    case LookupPayout(doer, amount) =>
      Outcome(c, if c.payout.Some? then Some(EmitRelease(Some(doer), amount)) else Some(CreatePayout(doer, amount)))
    case CreatePayout(doer, amount) =>
      var u := InsertPayout(c, doer, amount);
      Outcome(u.rows, if u.matched then Some(Dispatch(doer, amount)) else Some(EmitRelease(Some(doer), amount)))
    case Dispatch(doer, amount) => Outcome(DispatchPayout(c), Some(SettlePayout(doer, amount)))
    case SettlePayout(doer, amount) => Outcome(SetPayout(c, PayoutPending), Some(EmitRelease(Some(doer), amount)))
    case EmitRelease(_, _) => Outcome(EmitReleased(c), None)
    case PayPayout => Outcome(SetPayout(c, PayoutPaid), None)

    case CancelFunds(mode) =>
      var u := CancelTask(c, mode);
      Outcome(u.rows, if u.matched && mode == EscrowMode then Some(ReadCancelled) else None)
    case ReadCancelled =>
      Outcome(c, if c.escrow.Some? && c.escrow.value.status == RefundPending
                 then Some(StartRefund(CancelReason)) else None)

    case StartRefund(reason) =>
      Outcome(c, if c.escrow.None? then None else Some(LookupRefund(reason, c.escrow.value)))
    case LookupRefund(reason, seen) =>
      Outcome(c, if c.refund.Some? then Execute(c)
                 else if !Refundable(seen.status) then None
                 else if seen.paymentId.None? then None
                 else Some(ClaimFunds(reason, seen)))
    case ClaimFunds(reason, seen) => Outcome(ClaimEscrow(c).rows, Some(CreateRefund(reason, seen)))
    case CreateRefund(reason, seen) =>
      var u := InsertRefund(c, Charge(seen), reason);
      Outcome(u.rows, if u.matched then Some(ReadRefund) else Some(RereadRefund))
    case RereadRefund => Outcome(c, Execute(c))
    case ReadRefund =>
      Outcome(c, if Execute(c).None? || c.escrow.None? then None
                 else if !i.configured then Some(QueueRefund)
                 else if c.escrow.value.paymentId.None? then None  // proved never to happen
                 else Some(ClaimExecution(c.escrow.value.paymentId.value)))
    case QueueRefund => Outcome(c, None)
    case ClaimExecution(payment) =>
      var u := ClaimRefund(c, h);
      Outcome(u.rows, if u.matched then Some(CallRefund(payment)) else None)
    case CallRefund(_) => Outcome(CallProvider(c, i.success), Some(RecordRefund(i.success)))
    case RecordRefund(success) => Outcome(if success then FinishRefund(c) else FailRefund(c), None)

    case DisputeFunds(user, mode) => Outcome(Rows.RaiseDispute(c, user, mode).rows, None)
    case SettleDispute(sawEscrow, refundPoster) =>
      Outcome(Rows.ResolveDispute(c, sawEscrow, refundPoster), None)
  }
}
