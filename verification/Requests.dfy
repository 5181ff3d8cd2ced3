/** What whole requests achieve when nothing interferes with them: when each of them is
    taken, every column it leaves, and the events it emits.

    The predicates of this module name columns and literals only. No handler, statement or
    service is defined by them. */
module Requests {
  import opened Wrappers
  import opened Rows
  import opened Handlers
  import opened Invariants
  import opened World
  import opened Serial
  import opened Points
  import Orders

  // --- What can be observed ---

  /** Events and calls: TASK_POSTED, TASK_ACCEPTED, payouts dispatched, PAYMENT_RELEASED,
      refund calls to the provider, and those that it confirmed. */
  datatype Events = Events(posted: int, accepted: int, dispatched: int, paid: int, called: int, refunded: int)

  const SILENT: Events := Events(0, 0, 0, 0, 0, 0)

  function Emitted(c: Case, d: Case): Events {
    Events(d.trail.announced - c.trail.announced, d.trail.accepted - c.trail.accepted,
           d.trail.dispatches - c.trail.dispatches, d.trail.paidEvents - c.trail.paidEvents,
           d.trail.calls - c.trail.calls, d.trail.successes - c.trail.successes)
  }

  /** The rows end as those of `c`, after these events and no others. */
  predicate Leaves(c: Case, d: Case, events: Events) {
    d == c.(trail := d.trail) && Emitted(c, d) == events
  }

  function WithEscrow(c: Case, status: EscrowStatus): Case {
    if c.escrow.None? then c else c.(escrow := Some(c.escrow.value.(status := status)))
  }

  predicate IsParticipant(c: Case, user: UserId) {
    c.task.posterId == user || c.task.doerId == Some(user)
  }

  // --- Refunds ---

  /** The refund row after an attempt. */
  function Attempted(r: Refund, i: Input): Refund {
    if !i.configured then r
    else r.(status := if i.success then RefundDone else RefundFailed, attempts := r.attempts + 1)
  }

  /** The rows and the events after an attempt at the refund `r` of `c`. */
  predicate IsAttempt(c: Case, d: Case, r: Refund, i: Input) {
    && c.escrow.Some?
    && Leaves((if i.configured && i.success then WithEscrow(c, Refunded) else c).(refund := Some(Attempted(r, i))), d,
              if i.configured then SILENT.(called := 1, refunded := if i.success then 1 else 0) else SILENT)
  }

  predicate IsOpenRefund(r: Refund) {
    r.status == Queued || r.status == RefundFailed
  }

  /** Alone, an execution calls the provider once when it is configured, and records its answer. */
  lemma SoloExecutes(h: HandlerId, c: Case, i: Input)
    requires c.escrow.Some? && c.escrow.value.paymentId.Some? && c.refund.Some? && IsOpenRefund(c.refund.value)
    ensures IsAttempt(c, Solo(h, c, ReadRefund, i), c.refund.value, i)
  {
    hide Solo;
    AtReadRefund(h, c, i);
    if i.configured {
      var payment := c.escrow.value.paymentId.value;
      AtClaimExecution(h, c, payment, i);
      AtCallRefund(h, ClaimRefund(c, h).rows, payment, i);
    }
  }

  /** A refund row of the whole checkout charge. */
  function FullRefund(e: Escrow, reason: RefundReason): Refund {
    Refund(e.amounts.budget + e.amounts.posterFee, reason, Queued, 0)
  }

  /** What becomes of `c` when its refund is sought: a row that is there is attempted while it
      is open; without one, captured money that is held, disputed or on its way back is put on
      its way back, with a row for the whole charge that is attempted; and otherwise nothing. */
  predicate RefundSought(c: Case, d: Case, reason: RefundReason, i: Input) {
    if c.refund.Some? then
      if IsOpenRefund(c.refund.value) then IsAttempt(c, d, c.refund.value, i) else Leaves(c, d, SILENT)
    else if c.escrow.Some? && c.escrow.value.paymentId.Some?
            && (EscrowIs(c, Held) || EscrowIs(c, EscrowDisputed) || EscrowIs(c, RefundPending)) then
      IsAttempt(WithEscrow(c, RefundPending), d, FullRefund(c.escrow.value, reason), i)
    else Leaves(c, d, SILENT)
  }

  lemma SoloSeeksRefund(h: HandlerId, c: Case, reason: RefundReason, i: Input)
    requires CaseInv(c)
    ensures RefundSought(c, Solo(h, c, StartRefund(reason), i), reason, i)
  {
    hide Solo, FundingInv, PaymentInv, HeldInv, ReleaseInv, AssignmentInv;
    AtStartRefund(h, c, reason, i);
    if c.escrow.Some? {
      var seen := c.escrow.value;
      AtLookupRefund(h, c, reason, seen, i);
      if c.refund.Some? {
        if IsOpenRefund(c.refund.value) {
          SoloExecutes(h, c, i);
        }
      } else if Refundable(seen.status) && seen.paymentId.Some? {
        AtClaimFunds(h, c, reason, seen, i);
        var claimed := ClaimEscrow(c).rows;
        AtCreateRefund(h, claimed, reason, seen, i);
        SoloExecutes(h, InsertRefund(claimed, Charge(seen), reason).rows, i);
      }
    }
  }

  /** Alone, a creation that found another one's row attempts that row while it is open. */
  lemma SoloRereads(h: HandlerId, c: Case, i: Input)
    requires CaseInv(c) && c.refund.Some?
    ensures var d := Solo(h, c, RereadRefund, i);
            if IsOpenRefund(c.refund.value) then IsAttempt(c, d, c.refund.value, i) else d == c
  {
    hide Solo, FundingInv, PaymentInv, HeldInv, ReleaseInv, AssignmentInv;
    Unfold(h, c, RereadRefund, i);
    if IsOpenRefund(c.refund.value) {
      SoloExecutes(h, c, i);
    }
  }

  /** The money awaits a refund that a request served alone would attempt. */
  predicate Attemptable(c: Case) {
    EscrowIs(c, RefundPending) && c.escrow.value.paymentId.Some? && (c.refund.Some? ==> IsOpenRefund(c.refund.value))
  }

  /** Alone, a refund of an escrow that awaits one makes an attempt, at a new row for the
      whole charge when there is none yet. */
  lemma SoloRefunds(h: HandlerId, c: Case, reason: RefundReason, i: Input)
    requires CaseInv(c) && Attemptable(c)
    ensures var r := if c.refund.Some? then c.refund.value else FullRefund(c.escrow.value, reason);
            IsAttempt(c, Solo(h, c, StartRefund(reason), i), r, i)
  {
    hide Solo, CaseInv;
    SoloSeeksRefund(h, c, reason, i);
    assert WithEscrow(c, RefundPending) == c;
  }

  /** Alone, any other refund of money that awaits one changes nothing: its payment id is
      missing, or its row is completed or in flight. */
  lemma SoloRefuses(h: HandlerId, c: Case, reason: RefundReason, i: Input)
    requires CaseInv(c) && EscrowIs(c, RefundPending) && !Attemptable(c)
    ensures Solo(h, c, StartRefund(reason), i) == c
  {
    hide Solo, FundingInv, PaymentInv, HeldInv, ReleaseInv, AssignmentInv;
    AtStartRefund(h, c, reason, i);
    AtLookupRefund(h, c, reason, c.escrow.value, i);
  }

  predicate CanCancel(s: TaskStatus) {
    s == PendingPayment || s == Open || s == Assigned || s == InProgress
  }

  /** What becomes of `c` when it is cancelled. Held money awaits a refund from then on, and
      the refund of money that awaits one is sought; any other money stays where it is. */
  predicate IsCancelled(c: Case, d: Case, i: Input) {
    var x := (if EscrowIs(c, Held) then WithEscrow(c, RefundPending) else c).(task := c.task.(status := Cancelled));
    if EscrowIs(x, RefundPending) then RefundSought(x, d, CancelReason, i) else Leaves(x, d, SILENT)
  }

  lemma SoloCancels(h: HandlerId, c: Case, i: Input)
    requires CaseInv(c) && CanCancel(c.task.status)
    ensures IsCancelled(c, Solo(h, c, CancelFunds(c.task.mode), i), i)
  {
    hide Solo, PaymentInv, HeldInv, ReleaseInv, RefundInv, AssignmentInv;
    var y := CancelTask(c, c.task.mode).rows;
    AtCancelFunds(h, c, c.task.mode, i);
    AtReadCancelled(h, y, i);
    CancelTaskKeeps(h, c);
    if AwaitsRefund(y) {
      var x := (if EscrowIs(c, Held) then WithEscrow(c, RefundPending) else c).(task := c.task.(status := Cancelled));
      SoloSeeksRefund(h, y, CancelReason, i);
      SoughtFrom(x, y, Solo(h, y, StartRefund(CancelReason), i), i);
    }
  }

  /** What is sought of rows that differ in their history only is sought of either. */
  lemma SoughtFrom(x: Case, y: Case, d: Case, i: Input)
    requires Leaves(x, y, SILENT) && RefundSought(y, d, CancelReason, i)
    ensures RefundSought(x, d, CancelReason, i)
  {
  }

  /** Alone, a cancel by a participant of a task that can still be cancelled, or by an admin,
      cancels it; any other changes nothing. */
  lemma CancelRefunds(h: HandlerId, c: Case, r: Request, i: Input)
    requires CaseInv(c) && (r.Cancel? || r.ForceCancel?)
    ensures var d := Serve(h, c, r, i);
            if CanCancel(c.task.status) && (r.Cancel? ==> IsParticipant(c, r.user)) then IsCancelled(c, d, i)
            else d == c
  {
    hide Solo, CaseInv;
    if CanCancel(c.task.status) {
      SoloCancels(h, c, i);
    }
  }

  /** Alone, an admin's refund seeks the refund of an escrow that is not disputed. */
  lemma AdminSeeksRefund(h: HandlerId, c: Case, i: Input)
    requires CaseInv(c)
    ensures var d := Serve(h, c, AdminRefund, i);
            if c.escrow.None? || EscrowIs(c, EscrowDisputed) then d == c else RefundSought(c, d, AdminReason, i)
  {
    hide Solo, CaseInv;
    SoloSeeksRefund(h, c, AdminReason, i);
  }

  /** Alone, a retry attempts a refund that waits or failed, and no other. */
  lemma RetryAttempts(h: HandlerId, c: Case, i: Input)
    requires CaseInv(c)
    ensures var d := Serve(h, c, RetryRefund, i);
            if c.refund.Some? && (c.refund.value.status == Queued || c.refund.value.status == RefundFailed)
            then IsAttempt(c, d, c.refund.value, i) else d == c
  {
    hide Solo, FundingInv, PaymentInv, HeldInv, ReleaseInv, AssignmentInv;
    if c.refund.Some? && IsOpenRefund(c.refund.value) {
      SoloExecutes(h, c, i);
    }
  }

  // --- Assignment and work ---

  predicate AtLeast(tier: Tier, required: Tier) {
    required == Bronze || tier == Gold || tier == required
  }

  predicate Qualified(profile: Option<Profile>, required: Tier) {
    profile.Some? && profile.value.approved && AtLeast(profile.value.tier, required)
  }

  /** Alone, an accept assigns an open task with secured money to a qualified user other than
      its poster, and emits TASK_ACCEPTED; any other changes nothing. */
  lemma AcceptAssigns(h: HandlerId, c: Case, doer: UserId, i: Input)
    requires CaseInv(c)
    ensures var d := Serve(h, c, Accept(doer), i);
            if c.task.status == Open && c.task.posterId != doer && Qualified(i.profile, c.task.requiredTier)
               && (c.task.mode == EscrowMode ==> EscrowIs(c, Held))
            then Leaves(c.(task := c.task.(status := Assigned, doerId := Some(doer))), d, SILENT.(accepted := 1))
            else d == c
  {
    hide Solo, FundingInv, PaymentInv, HeldInv, ReleaseInv, RefundInv;
    AtCheckProfile(h, c, doer, c.task.requiredTier, c.task.mode, i);
    AtCheckFunds(h, c, doer, i);
    AtAssign(h, c, doer, i);
  }

  /** Alone, the assigned doer starts an assigned task, and nobody starts any other. */
  lemma StartStarts(h: HandlerId, c: Case, doer: UserId, i: Input)
    ensures var d := Serve(h, c, Start(doer), i);
            if c.task.doerId == Some(doer) && c.task.status == Assigned
            then Leaves(c.(task := c.task.(status := InProgress)), d, SILENT) else d == c
  {
    hide Solo;
    Unfold(h, c, MarkStarted, i);
  }

  /** Alone, the assigned doer completes an assigned or a started task, and nobody any other. */
  lemma CompleteCompletes(h: HandlerId, c: Case, doer: UserId, i: Input)
    ensures var d := Serve(h, c, Complete(doer), i);
            if c.task.doerId == Some(doer) && (c.task.status == Assigned || c.task.status == InProgress)
            then Leaves(c.(task := c.task.(status := Completed, completedAt := Some(i.now))), d, SILENT) else d == c
  {
    hide Solo;
    Unfold(h, c, MarkCompleted(doer), i);
  }

  // --- Payouts ---

  /** The end of a release whose payout row is there. */
  lemma PaidOff(h: HandlerId, c: Case, doer: UserId, amount: int, i: Input)
    ensures Solo(h, c, EmitRelease(Some(doer), amount), i) == EmitReleased(c)
    ensures Solo(h, c, Dispatch(doer, amount), i) == EmitReleased(SetPayout(DispatchPayout(c), PayoutPending))
  {
    hide Solo;
    var d := DispatchPayout(c);
    var e := SetPayout(d, PayoutPending);
    Unfold(h, c, EmitRelease(Some(doer), amount), i);
    Unfold(h, c, Dispatch(doer, amount), i);
    Unfold(h, d, SettlePayout(doer, amount), i);
    Unfold(h, e, EmitRelease(Some(doer), amount), i);
  }

  /** The escrow is released to the assigned doer, whose pending payout of the net amount is
      dispatched, and PAYMENT_RELEASED is emitted; `c` has the task row already as it ends. */
  predicate IsPaidOut(c: Case, d: Case) {
    && c.escrow.Some? && c.task.doerId.Some?
    && Leaves(c.(escrow := Some(c.escrow.value.(status := Released, doerId := c.task.doerId)),
                 payout := Some(Payout(c.task.doerId.value, c.escrow.value.amounts.netPayout, PayoutPending))), d,
              SILENT.(dispatched := 1, paid := 1))
  }

  /** Alone, a release of a held escrow to its assigned doer pays it out, and only a
      confirmation stamps the task. */
  lemma SoloReleases(h: HandlerId, c: Case, cause: Cause, i: Input)
    requires CaseInv(c) && EscrowIs(c, Held) && c.task.doerId.Some?
    ensures var d := Solo(h, c, ReleaseFunds(c.task.doerId, cause), i);
            IsPaidOut(if cause.ByConfirm? then c.(task := c.task.(confirmedAt := Some(i.now))) else c, d)
  {
    hide Solo, FundingInv, PaymentInv, RefundInv, AssignmentInv;
    var doer, net := c.task.doerId.value, c.escrow.value.amounts.netPayout;
    Unfold(h, c, ReleaseFunds(c.task.doerId, cause), i);
    var c1 := ReleaseHeld(c, h, c.task.doerId, cause, i.now).rows;
    Unfold(h, c1, ReadReleased(c.task.doerId), i);
    Unfold(h, c1, LookupPayout(doer, net), i);
    Unfold(h, c1, CreatePayout(doer, net), i);
    var c2 := InsertPayout(c1, doer, net).rows;
    PaidOff(h, c2, doer, net, i);
  }

  /** Alone, the poster's confirmation of a completed task stamps it and, unless it was paid in
      cash, pays the held escrow out; any other changes nothing. */
  lemma ConfirmPays(h: HandlerId, c: Case, user: UserId, i: Input)
    requires CaseInv(c)
    ensures var d := Serve(h, c, Confirm(user), i);
            var stamped := c.(task := c.task.(confirmedAt := Some(i.now)));
            if c.task.posterId == user && c.task.status == Completed
               && (c.task.mode == EscrowMode ==> EscrowIs(c, Held))
            then if c.task.mode == EscrowMode then IsPaidOut(stamped, d) else Leaves(stamped, d, SILENT)
            else d == c
  {
    hide Solo, FundingInv, PaymentInv, HeldInv, ReleaseInv, RefundInv;
    AtCheckHeld(h, c, user, c.task.doerId, i);
    AtMarkConfirmed(h, c, i);
    if c.task.status == Completed && EscrowIs(c, Held) {
      SoloReleases(h, c, ByConfirm(user), i);
    }
  }

  /** Alone, an admin marks an existing payout as paid. */
  lemma MarkPaidMarks(h: HandlerId, c: Case, i: Input)
    ensures var d := Serve(h, c, MarkPaid, i);
            if c.payout.Some? then Leaves(c.(payout := Some(c.payout.value.(status := PayoutPaid))), d, SILENT)
            else d == c
  {
    hide Solo;
    Unfold(h, c, PayPayout, i);
  }

  // --- Disputes ---

  predicate CanDispute(c: Case, user: UserId) {
    IsParticipant(c, user)
    && (c.task.status == Assigned || c.task.status == InProgress || c.task.status == Completed)
  }

  /** Alone, the first dispute that a participant raises about work in hand or done freezes the
      task and its escrow; any other changes nothing. */
  lemma DisputeFreezes(h: HandlerId, c: Case, user: UserId, i: Input)
    requires CaseInv(c)
    ensures var d := Serve(h, c, Request.RaiseDispute(user), i);
            if CanDispute(c, user) && c.dispute.None?
            then Leaves(WithEscrow(c, EscrowDisputed).(task := c.task.(status := TaskDisputed),
                                                       dispute := Some(Dispute(user, DisputeOpen))), d, SILENT)
            else d == c
    ensures CanDispute(c, user) && c.task.mode == EscrowMode ==> c.escrow.Some?
  {
    hide Solo, PaymentInv, HeldInv, ReleaseInv, RefundInv;
    AtDisputeFunds(h, c, user, c.task.mode, i);
  }

  /** Alone, the resolution of a dispute completes the task and writes the verdict into its
      escrow, and moves no money. */
  lemma ResolutionWrites(h: HandlerId, c: Case, refundPoster: bool, i: Input)
    ensures var d := Serve(h, c, Request.ResolveDispute(refundPoster), i);
            if c.dispute.Some?
            then Leaves(WithEscrow(c, if refundPoster then Refunded else Released)
                          .(task := c.task.(status := Completed),
                            dispute := Some(c.dispute.value.(status := DisputeResolved))), d, SILENT)
            else d == c
  {
    hide Solo;
    AtSettleDispute(h, c, c.escrow.Some?, refundPoster, i);
  }

  // --- Checkout and notifications ---

  /** The rows of a task whose checkout has been prepared. */
  function Ordered(c: Case): Case {
    if c.task.mode == EscrowMode && c.escrow.Some? then
      c.(escrow := Some(c.escrow.value.(orderId := Some(Orders.EscrowOrder(c.task.uuid)))))
    else if c.task.mode == CashMode && c.fee.Some? then
      c.(fee := Some(c.fee.value.(orderId := Some(Orders.FeeOrder(c.task.uuid)))))
    else c
  }

  predicate HasOrder(c: Case, order: string) {
    c.escrow.Some? && c.escrow.value.orderId == Some(order)
  }

  predicate HasFeeOrder(c: Case, order: string) {
    c.fee.Some? && c.fee.value.orderId == Some(order)
  }

  predicate CanPay(c: Case, user: UserId) {
    && c.task.posterId == user
    && if c.task.mode == EscrowMode then EscrowIs(c, Pending) else c.fee.Some? && c.fee.value.status == FeePending
  }

  /** Alone, the poster's checkout of an unpaid task stores its order id; any other changes nothing. */
  lemma CheckoutOrders(h: HandlerId, c: Case, user: UserId, i: Input)
    ensures var d := Serve(h, c, InitiatePayment(user), i);
            if CanPay(c, user) then Leaves(Ordered(c), d, SILENT) else d == c
  {
    hide Solo;
    Unfold(h, c, WriteEscrowOrder, i);
    Unfold(h, c, ReadFee, i);
    Unfold(h, c, WriteFeeOrder, i);
  }

  /** The rows after a payment notification routed to the escrow, or to the posting fee, of `c`. */
  function FundedAlone(c: Case, payment: Option<PaymentId>, i: Input): Case
    requires c.escrow.Some?
  {
    var next := BeginFunding(c.escrow.value, payment);
    if next.Some? then Solo(0, c, next.value, i) else c
  }

  function FeeFundedAlone(c: Case, payment: Option<PaymentId>, i: Input): Case
    requires c.fee.Some?
  {
    var next := BeginFeeFunding(c.fee.value, payment);
    if next.Some? then Solo(0, c, next.value, i) else c
  }

  /** What a notification makes of an escrow: the first one opens the waiting task with its
      money held, and announces it; money that arrives for a cancelled task is never held,
      and its refund is sought; every later one changes nothing. */
  predicate IsFunded(c: Case, d: Case, payment: Option<PaymentId>, i: Input) {
    && c.escrow.Some?
    && var e := c.escrow.value;
       if e.status != Pending then d == c
       else if c.task.status == PendingPayment then
         Leaves(c.(task := c.task.(status := Open), escrow := Some(e.(status := Held, paymentId := payment))), d,
                SILENT.(posted := 1))
       else
         && c.task.status == Cancelled
         && RefundSought(c.(escrow := Some(e.(status := RefundPending, paymentId := payment))), d, CancelReason, i)
  }

  lemma NotificationFunds(c: Case, payment: Option<PaymentId>, i: Input)
    requires CaseInv(c) && c.escrow.Some?
    ensures IsFunded(c, FundedAlone(c, payment, i), payment, i)
  {
    hide Solo, HeldInv, ReleaseInv, AssignmentInv;
    var e := c.escrow.value;
    if e.status == Pending {
      Unfold(0, c, FundEscrow(e, payment), i);
      var funded := ApplyEscrowPayment(c, 0, payment).rows;
      if c.task.status == PendingPayment {
        Unfold(0, funded, Announce, i);
      } else {
        ApplyEscrowPaymentKeeps(0, c, payment);
        SoloSeeksRefund(0, funded, CancelReason, i);
      }
    }
  }

  /** What a notification makes of a posting fee: the first one opens the waiting task and
      announces it, or marks the fee of a cancelled one as REFUNDED; every later one changes
      nothing. */
  predicate IsFeeFunded(c: Case, d: Case, payment: Option<PaymentId>) {
    && c.fee.Some?
    && var f := c.fee.value;
       if f.status != FeePending then d == c
       else if c.task.status == PendingPayment then
         Leaves(c.(task := c.task.(status := Open), fee := Some(f.(status := FeePaid, paymentId := payment))), d,
                SILENT.(posted := 1))
       else
         && c.task.status == Cancelled
         && Leaves(c.(fee := Some(f.(status := FeeRefunded, paymentId := payment))), d, SILENT)
  }

  lemma NotificationPaysFee(c: Case, payment: Option<PaymentId>, i: Input)
    requires CaseInv(c) && c.fee.Some?
    ensures IsFeeFunded(c, FeeFundedAlone(c, payment, i), payment)
  {
    hide Solo, HeldInv, ReleaseInv, RefundInv, AssignmentInv;
    if c.fee.value.status == FeePending {
      Unfold(0, c, FundFee(c.fee.value, payment), i);
      Unfold(0, ApplyFeePayment(c, 0, payment).rows, Announce, i);
    }
  }
}
