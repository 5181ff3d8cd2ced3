/** What a solo run does on the way of a refund, a cancel, a dispute and an accept, with the reads and
    lost races between the statements already decided. `Serial.Unfold` does for the rest. */
module Points {
  import opened Wrappers
  import opened Rows
  import opened Handlers
  import opened World
  import opened Serial

  lemma AtCheckProfile(h: HandlerId, c: Case, doer: UserId, tier: Tier, mode: PaymentMode, i: Input)
    ensures Solo(h, c, CheckProfile(doer, tier, mode), i) ==
            if i.profile.None? || !i.profile.value.approved || TierRank(i.profile.value.tier) < TierRank(tier) then c
            else if mode == EscrowMode then Solo(h, c, CheckFunds(doer), i) else Solo(h, c, Assign(doer), i)
  {
  }

  lemma AtCheckFunds(h: HandlerId, c: Case, doer: UserId, i: Input)
    ensures Solo(h, c, CheckFunds(doer), i) == (if IsHeld(c) then Solo(h, c, Assign(doer), i) else c)
  {
  }

  lemma AtAssign(h: HandlerId, c: Case, doer: UserId, i: Input)
    ensures Solo(h, c, Assign(doer), i) ==
            (var u := AssignDoer(c, h, doer);
            if u.matched then EmitAccepted(u.rows) else c)
  {
  }

  lemma AtCheckHeld(h: HandlerId, c: Case, user: UserId, worker: Option<UserId>, i: Input)
    ensures Solo(h, c, CheckHeld(user, worker), i) ==
            (if IsHeld(c) then Solo(h, c, ReleaseFunds(worker, ByConfirm(user)), i) else c)
  {
  }

  lemma AtMarkConfirmed(h: HandlerId, c: Case, i: Input)
    ensures Solo(h, c, MarkConfirmed, i) == WriteConfirmed(c, i.now)
  {
  }

  lemma AtReleaseFunds(h: HandlerId, c: Case, worker: Option<UserId>, cause: Cause, i: Input)
    ensures Solo(h, c, ReleaseFunds(worker, cause), i) ==
            (var u := ReleaseHeld(c, h, worker, cause, i.now);
            if u.matched then Solo(h, u.rows, ReadReleased(worker), i) else u.rows)
  {
  }

  lemma AtCancelFunds(h: HandlerId, c: Case, mode: PaymentMode, i: Input)
    ensures Solo(h, c, CancelFunds(mode), i) ==
            (var u := CancelTask(c, mode);
            if u.matched && mode == EscrowMode then Solo(h, u.rows, ReadCancelled, i) else u.rows)
  {
  }

  lemma AtReadCancelled(h: HandlerId, c: Case, i: Input)
    ensures Solo(h, c, ReadCancelled, i) ==
            if AwaitsRefund(c) then Solo(h, c, StartRefund(CancelReason), i) else c
  {
  }

  lemma AtStartRefund(h: HandlerId, c: Case, reason: RefundReason, i: Input)
    ensures Solo(h, c, StartRefund(reason), i) ==
            if c.escrow.None? then c else Solo(h, c, LookupRefund(reason, c.escrow.value), i)
  {
  }

  lemma AtLookupRefund(h: HandlerId, c: Case, reason: RefundReason, seen: Escrow, i: Input)
    ensures Solo(h, c, LookupRefund(reason, seen), i) ==
            if c.refund.Some? then (if Execute(c).Some? then Solo(h, c, ReadRefund, i) else c)
            else if !Refundable(seen.status) || seen.paymentId.None? then c
            else Solo(h, c, ClaimFunds(reason, seen), i)
  {
  }

  lemma AtClaimFunds(h: HandlerId, c: Case, reason: RefundReason, seen: Escrow, i: Input)
    ensures Solo(h, c, ClaimFunds(reason, seen), i) == Solo(h, ClaimEscrow(c).rows, CreateRefund(reason, seen), i)
  {
  }

  lemma AtCreateRefund(h: HandlerId, c: Case, reason: RefundReason, seen: Escrow, i: Input)
    ensures Solo(h, c, CreateRefund(reason, seen), i) ==
            (var u := InsertRefund(c, Charge(seen), reason);
            if u.matched || Execute(c).Some? then Solo(h, u.rows, ReadRefund, i) else c)
  {
  }

  lemma AtReadRefund(h: HandlerId, c: Case, i: Input)
    ensures Solo(h, c, ReadRefund, i) ==
            if Execute(c).None? || c.escrow.None? || !i.configured || c.escrow.value.paymentId.None? then c
            else Solo(h, c, ClaimExecution(c.escrow.value.paymentId.value), i)
  {
  }

  lemma AtClaimExecution(h: HandlerId, c: Case, payment: PaymentId, i: Input)
    ensures Solo(h, c, ClaimExecution(payment), i) ==
            (var u := ClaimRefund(c, h);
            if u.matched then Solo(h, u.rows, CallRefund(payment), i) else c)
  {
  }

  lemma AtCallRefund(h: HandlerId, c: Case, payment: PaymentId, i: Input)
    ensures Solo(h, c, CallRefund(payment), i) ==
            (var called := CallProvider(c, i.success);
            if i.success then FinishRefund(called) else FailRefund(called))
  {
  }

  lemma AtDisputeFunds(h: HandlerId, c: Case, user: UserId, mode: PaymentMode, i: Input)
    ensures Solo(h, c, DisputeFunds(user, mode), i) == Rows.RaiseDispute(c, user, mode).rows
  {
  }

  lemma AtSettleDispute(h: HandlerId, c: Case, sawEscrow: bool, refundPoster: bool, i: Input)
    ensures Solo(h, c, SettleDispute(sawEscrow, refundPoster), i) == Rows.ResolveDispute(c, sawEscrow, refundPoster)
  {
  }
}
