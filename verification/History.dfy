/** What stays true from one world of a run to all later ones, and what must have
    happened before a release. */
module History {
  import opened Wrappers
  import opened Rows
  import opened Handlers
  import opened Invariants
  import opened World
  import opened Safety
  import Fees
  import Orders

  // --- Written once ---

  /** `d` may be found in the place of `c` at some later moment. */
  ghost predicate Later(c: Case, d: Case) {
    && d.task.uuid == c.task.uuid && d.task.posterId == c.task.posterId
    && d.task.budget == c.task.budget && d.task.mode == c.task.mode
    && (c.task.doerId.Some? ==> d.task.doerId == c.task.doerId)
    && (c.escrow.Some? ==> d.escrow.Some? && d.escrow.value.amounts == c.escrow.value.amounts)
    && (c.escrow.Some? && c.escrow.value.status != Pending ==>
        d.escrow.value.status != Pending && d.escrow.value.paymentId == c.escrow.value.paymentId)
    && (HeldIsOver(c) ==> HeldIsOver(d))
    && (c.refund.Some? ==> d.refund.Some? && d.refund.value.amount == c.refund.value.amount
                           && c.refund.value.attempts <= d.refund.value.attempts)
    && (c.refund.Some? && c.refund.value.status == RefundDone ==> d.refund == c.refund)
    && (c.payout.Some? ==>
        && d.payout.Some?
        && d.payout.value.doerId == c.payout.value.doerId && d.payout.value.amount == c.payout.value.amount)
    && (c.fee.Some? && c.fee.value.status != FeePending ==>
        d.fee.Some? && d.fee.value.status == c.fee.value.status && d.fee.value.paymentId == c.fee.value.paymentId)
    && (c.dispute.Some? ==> d.dispute.Some? && d.dispute.value.raisedBy == c.dispute.value.raisedBy)
    && c.trail.opens <= d.trail.opens && c.trail.cancels <= d.trail.cancels
  }

  lemma GuaranteeIsLater(k: HandlerId, c: Case, d: Case)
    requires Guarantee(k, c, d)
    ensures Later(c, d)
  {
  }

  lemma LaterTransitive(c: Case, d: Case, e: Case)
    requires Later(c, d) && Later(d, e)
    ensures Later(c, e)
  {
  }

  /** In every run, from any world on: the doer, the captured payment id, the amounts, a
      completed refund, a payout's owner and amount, and a settled posting fee never change. */
  lemma {:induction false} WrittenOnce(ws: seq<World>, ls: seq<Label>, i: nat, j: nat, t: TaskId)
    requires IsRun(ws, ls) && i <= j < |ws| && t < |ws[i].cases|
    ensures t < |ws[j].cases| && Later(ws[i].cases[t], ws[j].cases[t])
    decreases j - i
  {
    hide Inv, FromTo, Later, Guarantee;
    if i == j {
      LaterReflexive(ws[i].cases[t]);
    } else {
      WrittenOnce(ws, ls, i, j - 1, t);
      RunInv(ws, ls, j - 1);
      assert FromTo(ws[j - 1], ls[j - 1], ws[j]);
      FromToPreserves(ws[j - 1], ls[j - 1], ws[j]);
      GuaranteeIsLater(ActorOf(ls[j - 1]), ws[j - 1].cases[t], ws[j].cases[t]);
      LaterTransitive(ws[i].cases[t], ws[j - 1].cases[t], ws[j].cases[t]);
    }
  }

  lemma LaterReflexive(c: Case)
    ensures Later(c, c)
  {
  }

  // --- What every world of a run shows ---

  lemma CaseInvAt(ws: seq<World>, ls: seq<Label>, n: nat, t: TaskId)
    requires IsRun(ws, ls) && n < |ws| && t < |ws[n].cases|
    ensures CaseInv(ws[n].cases[t])
  {
    hide CaseInv, HandlersInv, CountersInv;
    RunInv(ws, ls, n);
  }

  lemma PcInvAt(ws: seq<World>, ls: seq<Label>, n: nat, h: HandlerId)
    requires IsRun(ws, ls) && n < |ws| && h in ws[n].handlers && ws[n].handlers[h].At?
    ensures var x := ws[n].handlers[h];
            x.t < |ws[n].cases| && PcInv(h, ws[n].cases[x.t], x.pc, ws[n].now)
  {
    hide PcInv, CasesInv, CountersInv;
    RunInv(ws, ls, n);
  }

  /** The step captures the payment of `t`: a funding finds the escrow PENDING. */
  predicate Captures(w: World, l: Label, t: TaskId) {
    Moved(w, l).Some? && Moved(w, l).value.0 == t && Moved(w, l).value.1.FundEscrow? && t < |w.cases|
    && EscrowIs(w.cases[t], Pending)
  }

  /** Only a funding takes an escrow out of PENDING, and it writes what the notification carried. */
  lemma CaptureStep(h: HandlerId, c: Case, pc: Pc, i: Input)
    requires CaseInv(c) && PcInv(h, c, pc, i.now) && (c.escrow.Some? ==> c.escrow.value.status == Pending)
    ensures var e := Advance(h, c, pc, i).rows.escrow;
            && (e.Some? && e.value.status != Pending <==> pc.FundEscrow? && c.escrow.Some?)
            && (pc.FundEscrow? && c.escrow.Some? ==> e.value.paymentId == pc.carried)
  {
    hide HeldInv, ReleaseInv;
  }

  lemma CaptureWrites(ws: seq<World>, ls: seq<Label>, i: nat, t: TaskId)
    requires IsRun(ws, ls) && i < |ls| && t < |ws[i].cases|
    requires ws[i].cases[t].escrow.Some? ==> EscrowIs(ws[i].cases[t], Pending)
    ensures t < |ws[i + 1].cases|
    ensures var e := ws[i + 1].cases[t].escrow;
            && (e.Some? && e.value.status != Pending <==> Captures(ws[i], ls[i], t))
            && (Captures(ws[i], ls[i], t) ==> e.value.paymentId == Moved(ws[i], ls[i]).value.1.carried)
  {
    hide CaseInv, PcInv, Advance;
    var w, l := ws[i], ls[i];
    assert FromTo(w, l, ws[i + 1]);
    RunInv(ws, ls, i);
    TableGrows(w, l, ws[i + 1]);
    RowsAfter(w, l, ws[i + 1], t);
    if Moved(w, l).Some? && Moved(w, l).value.0 == t {
      MovedInv(w, l);
      CaptureStep(l.h, w.cases[t], Moved(w, l).value.1, InputOf(w, l));
    }
  }

  ghost predicate CapturedBefore(ws: seq<World>, ls: seq<Label>, n: nat, t: TaskId)
    requires IsRun(ws, ls) && n <= |ls|
  {
    exists j :: 0 <= j < n && Captures(ws[j], ls[j], t)
  }

  lemma {:induction false} CaptureHappened(ws: seq<World>, ls: seq<Label>, n: nat, t: TaskId)
    requires IsRun(ws, ls) && n <= |ls| && t < |ws[n].cases|
    requires ws[n].cases[t].escrow.Some? && ws[n].cases[t].escrow.value.status != Pending
    ensures CapturedBefore(ws, ls, n, t)
  {
    hide FromTo, Captures;
    if n == 0 {
    } else {
      var w, l := ws[n - 1], ls[n - 1];
      assert FromTo(w, l, ws[n]);
      FreshHasNoEscrow(w, l, ws[n], t);
      if w.cases[t].escrow.Some? && w.cases[t].escrow.value.status != Pending {
        CaptureHappened(ws, ls, n - 1, t);
      } else {
        CaptureWrites(ws, ls, n - 1, t);
      }
    }
  }

  lemma FreshHasNoEscrow(w: World, l: Label, v: World, t: TaskId)
    requires FromTo(w, l, v) && t < |v.cases| && v.cases[t].escrow.Some?
    ensures t < |w.cases|
  {
    hide Advance;
    RowsAfter(w, l, v, t);
  }

  /** An escrow is out of PENDING exactly when some earlier step has captured its payment, and
      its payment id is, in every later world, what that step's notification carried. */
  lemma PaymentIsWhatWasCaptured(ws: seq<World>, ls: seq<Label>, n: nat, t: TaskId)
    requires IsRun(ws, ls) && n <= |ls| && t < |ws[n].cases| && ws[n].cases[t].escrow.Some?
    ensures ws[n].cases[t].escrow.value.status != Pending <==> CapturedBefore(ws, ls, n, t)
    ensures forall j :: 0 <= j < n && Captures(ws[j], ls[j], t) ==>
              ws[n].cases[t].escrow.value.paymentId == Moved(ws[j], ls[j]).value.1.carried
  {
    hide FromTo, Captures;
    if ws[n].cases[t].escrow.value.status != Pending {
      CaptureHappened(ws, ls, n, t);
    }
    forall j: nat | j < n && Captures(ws[j], ls[j], t)
      ensures ws[n].cases[t].escrow.value.status != Pending
      ensures Moved(ws[j], ls[j]).Some? && Moved(ws[j], ls[j]).value.1.FundEscrow?
      ensures ws[n].cases[t].escrow.value.paymentId == Moved(ws[j], ls[j]).value.1.carried
    {
      CapturesIs(ws[j], ls[j], t);
      CaptureWrites(ws, ls, j, t);
      WrittenOnce(ws, ls, j + 1, n, t);
    }
  }

  lemma CapturesIs(w: World, l: Label, t: TaskId)
    requires Captures(w, l, t)
    ensures t < |w.cases| && EscrowIs(w.cases[t], Pending) && Moved(w, l).Some? && Moved(w, l).value.1.FundEscrow?
  {
  }

  /** A payment id is set only when the escrow is not PENDING. Past its status check, a refund
      finds the id that was captured, so that its second check fires exactly when the
      notification carried none; whatever the provider is asked to refund is that payment,
      for an amount equal to the checkout charge. */
  lemma PaymentIsCaptured(ws: seq<World>, ls: seq<Label>, n: nat, t: TaskId, h: HandlerId)
    requires IsRun(ws, ls) && n < |ws| && t < |ws[n].cases|
    ensures var e := ws[n].cases[t].escrow;
            e.Some? && e.value.paymentId.Some? ==> e.value.status != Pending
    ensures ws[n].cases[t].refund.Some? ==>
              ws[n].cases[t].escrow.Some? && ws[n].cases[t].escrow.value.paymentId.Some?
    ensures h in ws[n].handlers && ws[n].handlers[h].At? && ws[n].handlers[h].t == t ==>
              var c, pc := ws[n].cases[t], ws[n].handlers[h].pc;
              && (pc.LookupRefund? && Refundable(pc.seen.status) ==>
                  c.escrow.Some? && c.escrow.value.status != Pending && pc.seen.paymentId == c.escrow.value.paymentId)
              && (pc.CallRefund? ==>
                  && c.escrow.Some? && c.refund.Some?
                  && c.escrow.value.paymentId == Some(pc.payment)
                  && c.refund.value.amount == Charge(c.escrow.value))
  {
    hide FromTo, FundingInv, HeldInv, ReleaseInv, AssignmentInv;
    CaseInvAt(ws, ls, n, t);
    if h in ws[n].handlers && ws[n].handlers[h].At? && ws[n].handlers[h].t == t {
      PcInvAt(ws, ls, n, h);
    }
  }

  // --- What REFUNDED means ---

  lemma RefundWrites(h: HandlerId, c: Case, pc: Pc, i: Input)
    requires CaseInv(c) && PcInv(h, c, pc, i.now) && (pc.RecordRefund? || pc.SettleDispute?)
    ensures var d := Advance(h, c, pc, i).rows;
            if pc == RecordRefund(true) || pc == SettleDispute(true, true) then EscrowIs(d, Refunded)
            else if pc == SettleDispute(true, false) then EscrowIs(d, Released)
            else d.escrow == c.escrow
  {
    hide FundingInv, PaymentInv, HeldInv, ReleaseInv, AssignmentInv;
  }

  lemma OtherWrites(h: HandlerId, c: Case, pc: Pc, i: Input)
    requires WritesEscrow(pc) && !pc.RecordRefund? && !pc.SettleDispute?
    ensures var d := Advance(h, c, pc, i).rows;
            && (EscrowIs(d, Refunded) ==> EscrowIs(c, Refunded))
            && (pc.ReleaseFunds? && IsHeld(c) ==> EscrowIs(d, Released))
            && (EscrowIs(d, Released) ==> EscrowIs(c, Released) || (pc.ReleaseFunds? && IsHeld(c)))
  {
  }

  /** Two statements make an escrow REFUNDED: the record of a successful provider call, and
      the resolution of a dispute for the poster, which makes no call. */
  lemma RefundedEnteredExactly(h: HandlerId, c: Case, pc: Pc, i: Input)
    requires CaseInv(c) && PcInv(h, c, pc, i.now) && !EscrowIs(c, Refunded)
    ensures EscrowIs(Advance(h, c, pc, i).rows, Refunded) <==>
              pc == RecordRefund(true) || pc == SettleDispute(true, true)
  {
    hide CaseInv, PcInv, Advance;
    if pc.RecordRefund? || pc.SettleDispute? {
      RefundWrites(h, c, pc, i);
    } else if WritesEscrow(pc) {
      OtherWrites(h, c, pc, i);
    } else {
      EscrowStays(h, c, pc, i);
    }
  }

  /** Step `i` resolves the dispute of `t` for the poster. */
  predicate SettlesForPoster(w: World, l: Label, t: TaskId) {
    Moved(w, l) == Some((t, SettleDispute(true, true)))
  }

  ghost predicate SettledBefore(ws: seq<World>, ls: seq<Label>, n: nat, t: TaskId)
    requires IsRun(ws, ls) && n <= |ls|
  {
    exists j :: 0 <= j < n && SettlesForPoster(ws[j], ls[j], t)
  }

  /** The step by which an escrow becomes REFUNDED. */
  lemma RefundedAt(ws: seq<World>, ls: seq<Label>, i: nat, t: TaskId)
    requires IsRun(ws, ls) && i < |ls| && t < |ws[i].cases| && !EscrowIs(ws[i].cases[t], Refunded)
    ensures t < |ws[i + 1].cases|
    ensures EscrowIs(ws[i + 1].cases[t], Refunded) <==>
              Moved(ws[i], ls[i]) == Some((t, RecordRefund(true))) || SettlesForPoster(ws[i], ls[i], t)
  {
    hide CaseInv, PcInv, Advance;
    assert FromTo(ws[i], ls[i], ws[i + 1]);
    RunInv(ws, ls, i);
    TableGrows(ws[i], ls[i], ws[i + 1]);
    RowsAfter(ws[i], ls[i], ws[i + 1], t);
    if Moved(ws[i], ls[i]).Some? && Moved(ws[i], ls[i]).value.0 == t {
      MovedInv(ws[i], ls[i]);
      RefundedEnteredExactly(ls[i].h, ws[i].cases[t], Moved(ws[i], ls[i]).value.1, InputOf(ws[i], ls[i]));
    }
  }

  /** A success is recorded only after the provider has confirmed it, once. */
  lemma RecordedSuccess(ws: seq<World>, ls: seq<Label>, i: nat, t: TaskId)
    requires IsRun(ws, ls) && i < |ls| && t < |ws[i].cases| && Moved(ws[i], ls[i]) == Some((t, RecordRefund(true)))
    ensures Count(ws, ls, i, Steps(t, REFUNDS_MONEY)) == 1
  {
    hide FromTo, Ticks, Advance, CaseInv;
    PcInvAt(ws, ls, i, ls[i].h);
    SuccessesTick();
    TicksCount(ws, ls, i, t, (a: Trail) => a.successes, REFUNDS_MONEY);
  }

  /** As long as the provider has confirmed no refund of a task, its escrow becomes REFUNDED
      exactly when a dispute is resolved for the poster. */
  lemma RefundedOnPaperExactly(ws: seq<World>, ls: seq<Label>, i: nat, t: TaskId)
    requires IsRun(ws, ls) && i < |ls| && t < |ws[i].cases|
    requires !EscrowIs(ws[i].cases[t], Refunded) && Count(ws, ls, i, Steps(t, REFUNDS_MONEY)) == 0
    ensures t < |ws[i + 1].cases|
    ensures EscrowIs(ws[i + 1].cases[t], Refunded) <==> SettlesForPoster(ws[i], ls[i], t)
  {
    hide FromTo;
    RefundedAt(ws, ls, i, t);
    if Moved(ws[i], ls[i]) == Some((t, RecordRefund(true))) {
      RecordedSuccess(ws, ls, i, t);
    }
  }

  /** An escrow is REFUNDED only when its refund is completed, and then the provider has
      confirmed it once, or when a dispute was resolved for the poster earlier in the run. */
  lemma {:induction false} RefundedIsJustified(ws: seq<World>, ls: seq<Label>, n: nat, t: TaskId)
    requires IsRun(ws, ls) && n <= |ls| && t < |ws[n].cases| && EscrowIs(ws[n].cases[t], Refunded)
    ensures RefundJustified(ws[n].cases[t])
    ensures || (ws[n].cases[t].refund.Some? && ws[n].cases[t].refund.value.status == RefundDone
                && Count(ws, ls, n, Steps(t, REFUNDS_MONEY)) == 1)
            || SettledBefore(ws, ls, n, t)
  {
    hide FromTo, CaseInv, Advance;
    RefundedCase(ws, ls, n, t);
    if ws[n].cases[t].refund.Some? && ws[n].cases[t].refund.value.status == RefundDone {
      RefundsOnce(ws, ls, n, t);
    } else if n == 0 {
    } else {
      assert FromTo(ws[n - 1], ls[n - 1], ws[n]);
      RowsAfter(ws[n - 1], ls[n - 1], ws[n], t);
      if EscrowIs(ws[n - 1].cases[t], Refunded) {
        RefundedIsJustified(ws, ls, n - 1, t);
        WrittenOnce(ws, ls, n - 1, n, t);
      } else {
        RefundedAt(ws, ls, n - 1, t);
        if Moved(ws[n - 1], ls[n - 1]) == Some((t, RecordRefund(true))) {
          RecordedIsDone(ws, ls, n - 1, t);
        }
      }
    }
  }

  lemma RecordedIsDone(ws: seq<World>, ls: seq<Label>, i: nat, t: TaskId)
    requires IsRun(ws, ls) && i < |ls| && t < |ws[i].cases| && Moved(ws[i], ls[i]) == Some((t, RecordRefund(true)))
    requires t < |ws[i + 1].cases|
    ensures ws[i + 1].cases[t].refund.Some? && ws[i + 1].cases[t].refund.value.status == RefundDone
  {
    hide CaseInv;
    assert FromTo(ws[i], ls[i], ws[i + 1]);
    PcInvAt(ws, ls, i, ls[i].h);
    RowsAfter(ws[i], ls[i], ws[i + 1], t);
  }

  lemma RefundedCase(ws: seq<World>, ls: seq<Label>, n: nat, t: TaskId)
    requires IsRun(ws, ls) && n < |ws| && t < |ws[n].cases| && EscrowIs(ws[n].cases[t], Refunded)
    ensures RefundJustified(ws[n].cases[t])
  {
    hide FromTo, FundingInv, PaymentInv, HeldInv, ReleaseInv, AssignmentInv;
    CaseInvAt(ws, ls, n, t);
  }

  // --- What RELEASED means ---

  /** Two statements make an escrow RELEASED: a release that finds it HELD, and the
      resolution of a dispute for the doer, which pays nobody. */
  lemma ReleasedEnteredExactly(h: HandlerId, c: Case, pc: Pc, i: Input)
    requires CaseInv(c) && PcInv(h, c, pc, i.now) && !EscrowIs(c, Released)
    ensures EscrowIs(Advance(h, c, pc, i).rows, Released) <==>
              (pc.ReleaseFunds? && IsHeld(c)) || pc == SettleDispute(true, false)
  {
    hide CaseInv, PcInv, Advance;
    if pc.RecordRefund? || pc.SettleDispute? {
      RefundWrites(h, c, pc, i);
    } else if WritesEscrow(pc) {
      OtherWrites(h, c, pc, i);
    } else {
      EscrowStays(h, c, pc, i);
    }
  }

  /** Step `i` resolves the dispute of `t` for the doer. */
  predicate SettlesForDoer(w: World, l: Label, t: TaskId) {
    Moved(w, l) == Some((t, SettleDispute(true, false)))
  }

  /** The step by which an escrow becomes RELEASED. */
  lemma ReleasedAt(ws: seq<World>, ls: seq<Label>, i: nat, t: TaskId)
    requires IsRun(ws, ls) && i < |ls| && t < |ws[i].cases| && !EscrowIs(ws[i].cases[t], Released)
    ensures t < |ws[i + 1].cases|
    ensures EscrowIs(ws[i + 1].cases[t], Released) <==>
              Steps(t, RELEASES)(ws[i], ls[i]) || SettlesForDoer(ws[i], ls[i], t)
  {
    hide CaseInv, PcInv, Advance;
    assert FromTo(ws[i], ls[i], ws[i + 1]);
    RunInv(ws, ls, i);
    TableGrows(ws[i], ls[i], ws[i + 1]);
    RowsAfter(ws[i], ls[i], ws[i + 1], t);
    if Moved(ws[i], ls[i]).Some? && Moved(ws[i], ls[i]).value.0 == t {
      MovedInv(ws[i], ls[i]);
      ReleasedEnteredExactly(ls[i].h, ws[i].cases[t], Moved(ws[i], ls[i]).value.1, InputOf(ws[i], ls[i]));
    }
  }

  ghost predicate ReleasedBefore(ws: seq<World>, ls: seq<Label>, n: nat, t: TaskId)
    requires IsRun(ws, ls) && n <= |ls|
  {
    exists j :: 0 <= j < n && (Steps(t, RELEASES)(ws[j], ls[j]) || SettlesForDoer(ws[j], ls[j], t))
  }

  /** An escrow is RELEASED only after a release that matched, or
      after a resolution for the doer. */
  lemma {:induction false} ReleasedIsJustified(ws: seq<World>, ls: seq<Label>, n: nat, t: TaskId)
    requires IsRun(ws, ls) && n <= |ls| && t < |ws[n].cases| && EscrowIs(ws[n].cases[t], Released)
    ensures ReleasedBefore(ws, ls, n, t)
  {
    hide FromTo, SettlesForDoer;
    if n == 0 {
    } else {
      assert FromTo(ws[n - 1], ls[n - 1], ws[n]);
      FreshHasNoEscrow(ws[n - 1], ls[n - 1], ws[n], t);
      if EscrowIs(ws[n - 1].cases[t], Released) {
        ReleasedIsJustified(ws, ls, n - 1, t);
      } else {
        ReleasedAt(ws, ls, n - 1, t);
      }
    }
  }

  /** An escrow or posting fee is PENDING only while its task waits for payment or is
      cancelled, so a notification that finds a task past its payment changes no row; and a
      posting fee is REFUNDED only on a task that was cancelled before it ever opened. */
  lemma FundingGate(ws: seq<World>, ls: seq<Label>, n: nat, t: TaskId, h: HandlerId,
                    payment: Option<PaymentId>)
    requires IsRun(ws, ls) && n <= |ls| && t < |ws[n].cases|
    ensures var c := ws[n].cases[t];
            && (c.escrow.Some? && c.escrow.value.status == Pending ==> Early(c.task.status))
            && (c.fee.Some? && c.fee.value.status == FeePending ==> Early(c.task.status))
            && (ApplyEscrowPayment(c, h, payment).outcome.HookHeldOnly? ==> ApplyEscrowPayment(c, h, payment).rows == c)
            && (ApplyFeePayment(c, h, payment).outcome.HookHeldOnly? ==> ApplyFeePayment(c, h, payment).rows == c)
            && (c.fee.Some? && c.fee.value.status == FeeRefunded ==>
                c.task.status == Cancelled && Count(ws, ls, n, Steps(t, OPENS)) == 0)
  {
    hide FromTo, Ticks, Advance, PaymentInv, HeldInv, ReleaseInv, RefundInv, AssignmentInv;
    CaseInvAt(ws, ls, n, t);
    OpensTick();
    TicksCount(ws, ls, n, t, (a: Trail) => a.opens, OPENS);
  }

  // --- Assignment ---

  function IsAssigned(t: TaskId): World -> int {
    (w: World) => if t < |w.cases| && w.cases[t].task.doerId.Some? then 1 else 0
  }

  lemma AssignmentTracks(t: TaskId)
    ensures Tracks(IsAssigned(t), Steps(t, ASSIGNS))
  {
    hide FromTo, Inv, CaseInv, PcInv;
    forall w, l, v | FromTo(w, l, v) && Inv(w)
      ensures IsAssigned(t)(v) == IsAssigned(t)(w) + (if Steps(t, ASSIGNS)(w, l) then 1 else 0)
    {
      TableGrows(w, l, v);
      if t < |v.cases| {
        RowsAfter(w, l, v, t);
        if t < |w.cases| && Moved(w, l).Some? {
          DoerWritten(l.h, w.cases[t], Moved(w, l).value.1, InputOf(w, l));
        }
      }
    }
  }

  lemma DoerWritten(h: HandlerId, c: Case, pc: Pc, i: Input)
    ensures Advance(h, c, pc, i).rows.task.doerId ==
            if pc.Assign? && c.task.status == Open && c.task.doerId.None? then Some(pc.doer) else c.task.doerId
  {
  }

  /** Over all concurrent accepts the doer of a task is written at most once, and the
      winner keeps the task. */
  lemma AssignedOnce(ws: seq<World>, ls: seq<Label>, i: nat, j: nat, t: TaskId)
    requires IsRun(ws, ls) && i <= j <= |ls| && t < |ws[i].cases|
    ensures Count(ws, ls, j, Steps(t, ASSIGNS)) <= 1
    ensures ws[i].cases[t].task.doerId.Some? ==>
              t < |ws[j].cases| && ws[j].cases[t].task.doerId == ws[i].cases[t].task.doerId
  {
    hide FromTo, Tracks;
    AssignmentTracks(t);
    CountIs(ws, ls, j, Steps(t, ASSIGNS), IsAssigned(t));
    WrittenOnce(ws, ls, i, j, t);
  }

  lemma TierStays(w: World, l: Label, v: World, t: TaskId)
    requires FromTo(w, l, v) && t < |w.cases|
    ensures t < |v.cases| && v.cases[t].task.requiredTier == w.cases[t].task.requiredTier
  {
    hide Begin;
  }

  /** Handler `h` of world `n` serves request `r` to task `t`, which arrived at step `at`,
      and has been in flight ever since. */
  ghost predicate Serves(ws: seq<World>, ls: seq<Label>, n: nat, h: HandlerId, t: TaskId, r: Request, at: nat)
    requires IsRun(ws, ls) && n < |ws|
  {
    at < n && ls[at] == Receive(h, t, r) && forall k :: at < k <= n ==> h in ws[k].handlers
  }

  /** The accept that `h` serves arrived, and after that the profile of `doer` was found
      approved and of a tier that does for `t`. */
  ghost predicate EligibleBefore(ws: seq<World>, ls: seq<Label>, n: nat, h: HandlerId, t: TaskId, doer: UserId)
    requires IsRun(ws, ls) && n < |ws| && t < |ws[n].cases|
  {
    exists at: nat, j :: Serves(ws, ls, n, h, t, Accept(doer), at) && at < j < n
      && WasEligible(ws[j].profiles, doer, ws[n].cases[t].task.requiredTier)
  }

  predicate WasEligible(profiles: map<UserId, Profile>, doer: UserId, tier: Tier) {
    doer in profiles && profiles[doer].approved && TierRank(profiles[doer].tier) >= TierRank(tier)
  }

  /** A handler that is about to check a profile serves an accept of that doer and compares
      with the tier of the task; one that is past the check has found it good enough. */
  ghost predicate Checked(ws: seq<World>, ls: seq<Label>, n: nat, h: HandlerId, t: TaskId, pc: Pc)
    requires IsRun(ws, ls) && n < |ws| && t < |ws[n].cases|
  {
    match pc
    case CheckProfile(doer, tier, _) =>
      && tier == ws[n].cases[t].task.requiredTier
      && exists at: nat :: Serves(ws, ls, n, h, t, Accept(doer), at)
    case CheckFunds(doer) => EligibleBefore(ws, ls, n, h, t, doer)
    case Assign(doer) => EligibleBefore(ws, ls, n, h, t, doer)
    case _ => true
  }

  lemma CheckedStep(w: World, l: Label, v: World, h: HandlerId)
    requires FromTo(w, l, v) && h in v.handlers && v.handlers[h].At? && Inv(w)
    ensures var x := v.handlers[h];
            match x.pc
            case CheckProfile(doer, tier, _) =>
              || (h in w.handlers && w.handlers[h] == x)
              || (l == Receive(h, x.t, Accept(doer)) && x.t < |w.cases| && tier == w.cases[x.t].task.requiredTier)
            case CheckFunds(doer) => AfterCheck(w, h, x, doer)
            case Assign(doer) => AfterCheck(w, h, x, doer)
            case _ => true
  {
    hide Inv, Advance, Begin, WasEligible;
    if l.Run? && h == l.h {
      CheckLeads(h, w.cases[w.handlers[h].t], w.handlers[h].pc, InputOf(w, l), w.profiles);
    } else if l.Receive? && h == l.h {
      BeginChecks(w.cases[l.t], l.request);
    }
  }

  lemma CheckLeads(h: HandlerId, c: Case, pc: Pc, i: Input, profiles: map<UserId, Profile>)
    requires pc.CheckProfile? ==> i.profile == Lookup(profiles, pc.doer)
    ensures var next := Advance(h, c, pc, i).next;
            next.Some? ==>
              && !next.value.CheckProfile?
              && (next.value.CheckFunds? || next.value.Assign? ==>
                  (pc.CheckProfile? && pc.doer == next.value.doer && WasEligible(profiles, pc.doer, pc.tier))
                  || (pc.CheckFunds? && pc.doer == next.value.doer))
  {
  }

  lemma BeginChecks(c: Case, r: Request)
    ensures var next := Begin(c, r);
            next.Some? ==>
              && !next.value.CheckFunds? && !next.value.Assign?
              && (next.value.CheckProfile? ==>
                  r == Accept(next.value.doer) && next.value.tier == c.task.requiredTier)
  {
  }

  predicate AfterCheck(w: World, h: HandlerId, x: Handler, doer: UserId) {
    && h in w.handlers && w.handlers[h].At? && x.At? && w.handlers[h].t == x.t
    && var pc := w.handlers[h].pc;
       || (pc.CheckProfile? && pc.doer == doer && WasEligible(w.profiles, doer, pc.tier))
       || (pc.CheckFunds? && pc.doer == doer) || (pc.Assign? && pc.doer == doer)
  }

  lemma {:induction false} ChecksHappened(ws: seq<World>, ls: seq<Label>, n: nat, h: HandlerId)
    requires IsRun(ws, ls) && n < |ws| && h in ws[n].handlers && ws[n].handlers[h].At?
    ensures ws[n].handlers[h].t < |ws[n].cases|
    ensures Checked(ws, ls, n, h, ws[n].handlers[h].t, ws[n].handlers[h].pc)
  {
    hide FromTo, Inv, WasEligible, Serves, EligibleBefore;
    PcInvAt(ws, ls, n, h);
    if n == 0 {
    } else {
      var w, l, x := ws[n - 1], ls[n - 1], ws[n].handlers[h];
      assert FromTo(w, l, ws[n]);
      RunInv(ws, ls, n - 1);
      CheckedStep(w, l, ws[n], h);
      if x.t < |w.cases| {
        TierStays(w, l, ws[n], x.t);
      }
      if h in w.handlers && w.handlers[h].At? && w.handlers[h].t == x.t {
        ChecksHappened(ws, ls, n - 1, h);
        CheckedOn(ws, ls, n, h, x.t, w.handlers[h].pc, x.pc);
      } else if x.pc.CheckProfile? {
        JustArrived(ws, ls, n, h);
      }
    }
  }

  lemma JustArrived(ws: seq<World>, ls: seq<Label>, n: nat, h: HandlerId)
    requires IsRun(ws, ls) && 0 < n < |ws| && h in ws[n].handlers && ls[n - 1].Receive? && ls[n - 1].h == h
    ensures Serves(ws, ls, n, h, ls[n - 1].t, ls[n - 1].request, n - 1)
  {
    hide FromTo;
  }

  /** A handler in flight goes on serving the same request. */
  lemma ServesOn(ws: seq<World>, ls: seq<Label>, n: nat, h: HandlerId, t: TaskId, r: Request, at: nat)
    requires IsRun(ws, ls) && 0 < n < |ws| && h in ws[n].handlers && Serves(ws, ls, n - 1, h, t, r, at)
    ensures Serves(ws, ls, n, h, t, r, at) && at < n - 1
  {
    hide FromTo;
  }

  lemma CheckedOn(ws: seq<World>, ls: seq<Label>, n: nat, h: HandlerId, t: TaskId, pc: Pc, next: Pc)
    requires IsRun(ws, ls) && 0 < n < |ws| && t < |ws[n - 1].cases| && t < |ws[n].cases| && h in ws[n].handlers
    requires Checked(ws, ls, n - 1, h, t, pc)
    requires ws[n].cases[t].task.requiredTier == ws[n - 1].cases[t].task.requiredTier
    requires next.CheckProfile? ==> pc == next || ls[n - 1] == Receive(h, t, Accept(next.doer))
    requires next.CheckProfile? && pc != next ==> next.tier == ws[n].cases[t].task.requiredTier
    requires next.CheckFunds? || next.Assign? ==>
               || (pc.CheckProfile? && pc.doer == next.doer && WasEligible(ws[n - 1].profiles, pc.doer, pc.tier))
               || ((pc.CheckFunds? || pc.Assign?) && pc.doer == next.doer)
    ensures Checked(ws, ls, n, h, t, next)
  {
    hide FromTo, WasEligible, Serves;
    if next.CheckProfile? && pc != next {
      JustArrived(ws, ls, n, h);
    } else if pc.CheckProfile? {
      var at: nat :| Serves(ws, ls, n - 1, h, t, Accept(pc.doer), at);
      ServesOn(ws, ls, n, h, t, Accept(pc.doer), at);
    } else if pc.CheckFunds? || pc.Assign? {
      var at: nat, j :| Serves(ws, ls, n - 1, h, t, Accept(pc.doer), at) && at < j < n - 1
        && WasEligible(ws[j].profiles, pc.doer, ws[n - 1].cases[t].task.requiredTier);
      ServesOn(ws, ls, n, h, t, Accept(pc.doer), at);
    }
  }

  /** The doer who gets a task was found approved, and of at least the tier that the task
      requires, after the accept that assigns it had arrived. */
  lemma AssigneeWasEligible(ws: seq<World>, ls: seq<Label>, i: nat, t: TaskId)
    requires IsRun(ws, ls) && i < |ls| && Steps(t, ASSIGNS)(ws[i], ls[i])
    ensures ls[i].Run?
    ensures EligibleBefore(ws, ls, i, ls[i].h, t, Moved(ws[i], ls[i]).value.1.doer)
  {
    hide FromTo;
    var pc := Moved(ws[i], ls[i]).value.1;
    ChecksHappened(ws, ls, i, ls[i].h);
  }

  // --- Cancel, then release ---

  /** After a committed cancel no release of that task's escrow ever matches, even when a
      stale write has put the task back to work. */
  lemma CancelIsFinalForMoney(ws: seq<World>, ls: seq<Label>, i: nat, j: nat, t: TaskId)
    requires IsRun(ws, ls) && i < j < |ls|
    requires Steps(t, CANCELS)(ws[i], ls[i])
    ensures !Steps(t, RELEASES)(ws[j], ls[j])
  {
    hide FromTo, FundingInv, PaymentInv, ReleaseInv, RefundInv, AssignmentInv, Advance;
    assert FromTo(ws[i], ls[i], ws[i + 1]);
    TableGrows(ws[i], ls[i], ws[i + 1]);
    RowsAfter(ws[i], ls[i], ws[i + 1], t);
    CancelsTick();
    assert ws[i + 1].cases[t].trail.cancels > 0 by {
      var a := (a: Trail) => a.cancels;
      assert a(ws[i + 1].cases[t].trail) == a(ws[i].cases[t].trail) + 1;
    }
    WrittenOnce(ws, ls, i + 1, j, t);
    CaseInvAt(ws, ls, j, t);
  }

  // --- What came before a release ---

  ghost predicate CompletedBefore(ws: seq<World>, ls: seq<Label>, n: nat, t: TaskId, doer: UserId, at: Time)
    requires IsRun(ws, ls)
  {
    exists j :: 0 <= j < n && j < |ls| && Moved(ws[j], ls[j]) == Some((t, MarkCompleted(doer))) && ws[j].now == at
  }

  /** The request that `h` serves is a confirmation by `user`, the poster of `t`, and found
      the task COMPLETED when it arrived. */
  ghost predicate ConfirmedBefore(ws: seq<World>, ls: seq<Label>, n: nat, h: HandlerId, t: TaskId, user: UserId)
    requires IsRun(ws, ls) && n < |ws|
  {
    exists at: nat :: Serves(ws, ls, n, h, t, Confirm(user), at) && Confirmable(ws[at], t, user)
  }

  lemma CompletionsGrow(h: HandlerId, c: Case, pc: Pc, i: Input)
    ensures Advance(h, c, pc, i).rows.trail.completions ==
            if pc.MarkCompleted? then c.trail.completions + {Completion(pc.doer, i.now)} else c.trail.completions
  {
  }

  lemma {:induction false} CompletionsHappened(ws: seq<World>, ls: seq<Label>, n: nat, t: TaskId, k: Completion)
    requires IsRun(ws, ls) && n < |ws| && t < |ws[n].cases| && k in ws[n].cases[t].trail.completions
    ensures CompletedBefore(ws, ls, n, t, k.doer, k.at)
  {
    hide FromTo, Inv, Advance;
    if n == 0 {
    } else {
      var w, l := ws[n - 1], ls[n - 1];
      assert FromTo(w, l, ws[n]);
      RowsAfter(w, l, ws[n], t);
      if t < |w.cases| {
        if k in w.cases[t].trail.completions {
          CompletionsHappened(ws, ls, n - 1, t, k);
        } else {
          CompletionsGrow(l.h, w.cases[t], Moved(w, l).value.1, InputOf(w, l));
        }
      }
    }
  }

  /** The user on whose confirmation a handler acts. */
  function Confirms(x: Handler): Option<UserId> {
    if x.At? then ConfirmsAt(x.pc) else None
  }

  predicate Confirmable(w: World, t: TaskId, user: UserId) {
    t < |w.cases| && w.cases[t].task.status == Completed && w.cases[t].task.posterId == user
  }

  /** Only a confirmation that passes its checks, or a handler that already acts on one,
      leads to acting on one. */
  lemma ConfirmsSpread(w: World, l: Label, v: World, h: HandlerId)
    requires FromTo(w, l, v) && h in v.handlers && Confirms(v.handlers[h]).Some?
    ensures var user := Confirms(v.handlers[h]).value;
            || (l == Receive(h, v.handlers[h].t, Confirm(user)) && Confirmable(w, l.t, user))
            || (h in w.handlers && w.handlers[h].At? && w.handlers[h].t == v.handlers[h].t
                && Confirms(w.handlers[h]) == Confirms(v.handlers[h]))
  {
    hide Advance, Begin;
    if l.Run? && h == l.h {
      ConfirmsOn(h, w.cases[w.handlers[h].t], w.handlers[h].pc, InputOf(w, l));
    } else if l.Receive? && h == l.h {
      ConfirmsBegin(w.cases[l.t], l.request);
    }
  }

  function ConfirmsAt(pc: Pc): Option<UserId> {
    match pc
    case CheckHeld(user, _) => Some(user)
    case ReleaseFunds(_, cause) => if cause.ByConfirm? then Some(cause.user) else None
    case _ => None
  }

  lemma ConfirmsOn(h: HandlerId, c: Case, pc: Pc, i: Input)
    ensures var next := Advance(h, c, pc, i).next;
            next.Some? && ConfirmsAt(next.value).Some? ==> ConfirmsAt(pc) == ConfirmsAt(next.value)
  {
  }

  lemma ConfirmsBegin(c: Case, r: Request)
    ensures var next := Begin(c, r);
            next.Some? && ConfirmsAt(next.value).Some? ==>
              && r == Confirm(ConfirmsAt(next.value).value)
              && c.task.status == Completed && c.task.posterId == ConfirmsAt(next.value).value
  {
  }

  lemma {:induction false} ConfirmRequested(ws: seq<World>, ls: seq<Label>, n: nat, h: HandlerId)
    requires IsRun(ws, ls) && n < |ws| && h in ws[n].handlers && Confirms(ws[n].handlers[h]).Some?
    ensures ConfirmedBefore(ws, ls, n, h, ws[n].handlers[h].t, Confirms(ws[n].handlers[h]).value)
  {
    hide FromTo;
    if n == 0 {
    } else {
      var t, user := ws[n].handlers[h].t, Confirms(ws[n].handlers[h]).value;
      assert FromTo(ws[n - 1], ls[n - 1], ws[n]);
      ConfirmsSpread(ws[n - 1], ls[n - 1], ws[n], h);
      if ls[n - 1] == Receive(h, t, Confirm(user)) && Confirmable(ws[n - 1], t, user) {
        JustArrived(ws, ls, n, h);
      } else {
        ConfirmRequested(ws, ls, n - 1, h);
        var at: nat :| Serves(ws, ls, n - 1, h, t, Confirm(user), at) && Confirmable(ws[at], t, user);
        ServesOn(ws, ls, n, h, t, Confirm(user), at);
      }
    }
  }

  /** Every release that finds the escrow HELD pays the assigned doer, comes after that
      doer marked the task complete, and comes either after the poster's own confirmation
      or at least 24 hours after such a completion, however stale the list the scheduler
      works from. */
  lemma ReleaseProvenance(ws: seq<World>, ls: seq<Label>, i: nat, t: TaskId)
    requires IsRun(ws, ls) && i < |ls| && Steps(t, RELEASES)(ws[i], ls[i])
    ensures var c, pc := ws[i].cases[t], Moved(ws[i], ls[i]).value.1;
            && c.task.doerId.Some? && pc.worker == c.task.doerId
            && (exists at :: CompletedBefore(ws, ls, i, t, c.task.doerId.value, at))
            && match pc.cause
               case ByConfirm(user) => user == c.task.posterId && ConfirmedBefore(ws, ls, i, ls[i].h, t, user)
               case ByAuto(scan, at) =>
                 CompletedBefore(ws, ls, i, t, c.task.doerId.value, at) && at + AUTO_RELEASE_AFTER <= scan <= ws[i].now
  {
    hide FromTo, FundingInv, PaymentInv, ReleaseInv, RefundInv, Advance, CompletedBefore, ConfirmedBefore;
    var c, pc := ws[i].cases[t], Moved(ws[i], ls[i]).value.1;
    CaseInvAt(ws, ls, i, t);
    PcInvAt(ws, ls, i, ls[i].h);
    assert CauseInv(c, pc.worker, pc.cause, ws[i].now);
    match pc.cause
    case ByConfirm(user) =>
      ConfirmRequested(ws, ls, i, ls[i].h);
      var k :| k in c.trail.completions;
      CompletionsHappened(ws, ls, i, t, k);
    case ByAuto(scan, at) =>
      CompletionsHappened(ws, ls, i, t, Completion(c.task.doerId.value, at));
  }

  /** Every payout that is dispatched and every PAYMENT_RELEASED carries the assigned doer
      and the net amount of the escrow, and the dispatched one is the payout row's. */
  lemma PayoutsCarryNet(ws: seq<World>, ls: seq<Label>, i: nat, t: TaskId)
    requires IsRun(ws, ls) && i < |ls|
    requires Moved(ws[i], ls[i]).Some? && Moved(ws[i], ls[i]).value.0 == t < |ws[i].cases|
    requires Moved(ws[i], ls[i]).value.1.Dispatch? || Moved(ws[i], ls[i]).value.1.EmitRelease?
    ensures var c, pc := ws[i].cases[t], Moved(ws[i], ls[i]).value.1;
            && c.escrow.Some?
            && pc.amount == c.escrow.value.amounts.netPayout
            && (if pc.Dispatch? then Some(pc.doer) else pc.worker) == c.task.doerId
            && (pc.Dispatch? ==>
                c.payout.Some? && c.payout.value.doerId == pc.doer && c.payout.value.amount == pc.amount)
  {
    hide FromTo, FundingInv, PaymentInv, HeldInv, RefundInv, AssignmentInv, Advance;
    CaseInvAt(ws, ls, i, t);
    PcInvAt(ws, ls, i, ls[i].h);
  }

  // --- Replayed notifications ---

  /** An order id names at most one escrow or one posting fee of a reachable world. */
  lemma RoutingIsUnambiguous(ws: seq<World>, ls: seq<Label>, n: nat, order: string, t: TaskId, u: TaskId)
    requires IsRun(ws, ls) && n < |ws|
    ensures OwnsEscrowOrder(ws[n], t, order) && OwnsEscrowOrder(ws[n], u, order) ==> t == u
    ensures OwnsFeeOrder(ws[n], t, order) && OwnsFeeOrder(ws[n], u, order) ==> t == u
    ensures !(OwnsEscrowOrder(ws[n], t, order) && OwnsFeeOrder(ws[n], u, order))
  {
    hide FromTo, FundingInv, HeldInv, ReleaseInv, RefundInv, AssignmentInv, HandlersInv, CountersInv;
    if t < |ws[n].cases| && u < |ws[n].cases| {
      CaseInvAt(ws, ls, n, t);
      CaseInvAt(ws, ls, n, u);
      RunInv(ws, ls, n);
      Orders.OrdersRoute(ws[n].cases[t].task.uuid, ws[n].cases[u].task.uuid);
    }
  }

  /** The payment of the task has been applied. */
  predicate Paid(c: Case) {
    (c.escrow.Some? && c.escrow.value.status != Pending) || (c.fee.Some? && c.fee.value.status != FeePending)
  }

  /** A step of a payment notification on the rows of `t`: its lookups, or its transaction. */
  predicate IsNotification(w: World, l: Label, t: TaskId) {
    || l.Notify? || l.NotifyFee?
    || (Moved(w, l).Some? && Moved(w, l).value.0 == t
        && (Moved(w, l).value.1.FundEscrow? || Moved(w, l).value.1.FundFee?))
  }

  /** Once a payment has been applied, no step of any later or stale notification, at any
      point of the run, changes any row; all that a transaction may still start is the
      refund of a cancelled task, and a lookup starts nothing at all. */
  lemma ReplayIsHarmless(ws: seq<World>, ls: seq<Label>, i: nat, j: nat, t: TaskId)
    requires IsRun(ws, ls) && i <= j < |ls| && t < |ws[i].cases|
    requires Paid(ws[i].cases[t]) && IsNotification(ws[j], ls[j], t)
    ensures ws[j + 1].cases == ws[j].cases && ws[j + 1].profiles == ws[j].profiles
    ensures forall k :: k != ls[j].h ==>
              (k in ws[j + 1].handlers <==> k in ws[j].handlers)
              && (k in ws[j].handlers ==> ws[j + 1].handlers[k] == ws[j].handlers[k])
    ensures ls[j].h in ws[j + 1].handlers && ws[j + 1].handlers[ls[j].h].At? && ws[j + 1].handlers[ls[j].h].t == t ==>
              ws[j + 1].handlers[ls[j].h].pc == StartRefund(CancelReason) && ws[j].cases[t].task.status == Cancelled
  {
    hide Advance, Begin, PaymentInv, HeldInv, ReleaseInv, RefundInv, AssignmentInv;
    WrittenOnce(ws, ls, i, j, t);
    CaseInvAt(ws, ls, j, t);
    assert FromTo(ws[j], ls[j], ws[j + 1]);
    if Moved(ws[j], ls[j]).Some? {
      PaidStaysPaid(ls[j].h, ws[j].cases[t], Moved(ws[j], ls[j]).value.1, InputOf(ws[j], ls[j]));
    }
  }

  lemma PaidStaysPaid(h: HandlerId, c: Case, pc: Pc, i: Input)
    requires FundingInv(c) && Paid(c)
    ensures pc.FundEscrow? || pc.FundFee? ==>
              var o := Advance(h, c, pc, i);
              o.rows == c && (o.next.Some? ==> o.next == Some(StartRefund(CancelReason)) && c.task.status == Cancelled)
  {
  }

  // --- Lost races ---

  /** The write at a program point comes too late: another handler has been there first. */
  predicate ComesLate(c: Case, pc: Pc) {
    match pc
    case FundEscrow(_, _) => !EscrowIs(c, Pending)
    case FundFee(_, _) => c.fee.Some? && c.fee.value.status != FeePending
    case Assign(_) => c.task.status != Open || c.task.doerId.Some?
    case ReleaseFunds(_, _) => !EscrowIs(c, Held)
    case CreatePayout(_, _) => c.payout.Some?
    case CancelFunds(_) =>
      c.task.status == Completed || c.task.status == Cancelled || c.task.status == TaskDisputed
    case CreateRefund(_, _) => c.refund.Some?
    case ClaimExecution(_) =>
      c.refund.Some? && (c.refund.value.status == Processing || c.refund.value.status == RefundDone)
    case DisputeFunds(_, _) => c.dispute.Some?
    case _ => false
  }

  /** Where a handler goes from a write that came too late. */
  function Resigned(c: Case, pc: Pc): Option<Pc> {
    match pc
    case FundEscrow(_, _) => if c.task.status == Cancelled then Some(StartRefund(CancelReason)) else None
    case CreatePayout(doer, amount) => Some(EmitRelease(Some(doer), amount))
    case CreateRefund(_, _) => Some(RereadRefund)
    case _ => None
  }

  /** A handler that comes too late leaves no trace, except that a confirmation still stamps the
      task; it ends, or goes on with the row that was there first. */
  lemma LatecomersLeaveNoTrace(h: HandlerId, c: Case, pc: Pc, i: Input)
    requires CaseInv(c) && PcInv(h, c, pc, i.now) && ComesLate(c, pc)
    ensures var o := Advance(h, c, pc, i);
            && o.next == Resigned(c, pc)
            && if pc.ReleaseFunds? && pc.cause.ByConfirm?
               then o.rows == c.(task := c.task.(confirmedAt := Some(i.now))) else o.rows == c
  {
    hide PaymentInv, HeldInv, ReleaseInv, RefundInv, AssignmentInv;
  }
}
