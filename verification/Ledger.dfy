/** Runs without disputes, dispute resolutions and admin refunds: an escrow pays the doer
    or refunds the poster, never both, and the books balance over any number of tasks. */
module Ledger {
  import opened Wrappers
  import opened Rows
  import opened Handlers
  import opened Invariants
  import opened World
  import Fees

  predicate IsCalm(l: Label) {
    l.Receive? ==> !l.request.RaiseDispute? && !l.request.ResolveDispute? && !l.request.AdminRefund?
  }

  ghost predicate IsCalmRun(ws: seq<World>, ls: seq<Label>) {
    IsRun(ws, ls) && forall i :: 0 <= i < |ls| ==> IsCalm(ls[i])
  }

  // --- The stronger invariant ---

  /** The money is on its way back to the poster. */
  predicate GoingBack(c: Case) {
    c.escrow.Some? && (c.escrow.value.status == RefundPending || c.escrow.value.status == Refunded)
  }

  ghost predicate CalmCase(c: Case) {
    && c.dispute.None?
    && (c.escrow.Some? ==> c.escrow.value.status != EscrowDisputed
                           && (c.escrow.value.status == Released <==> c.trail.releases == 1))
    && (c.refund.Some? ==> GoingBack(c))
    && (EscrowIs(c, Refunded) <==> c.refund.Some? && c.refund.value.status == RefundDone)
  }

  /** What a refund handler relies on about the escrow version it has seen. */
  predicate SeenSettled(c: Case, seen: Escrow) {
    && seen.status != Pending && seen.status != Held && seen.status != EscrowDisputed
    && (seen.status == RefundPending ==> GoingBack(c))
  }

  ghost predicate CalmPc(c: Case, pc: Pc) {
    match pc
    case StartRefund(_) => HeldIsOver(c)
    case LookupRefund(_, seen) => SeenSettled(c, seen)
    case ClaimFunds(_, seen) => SeenSettled(c, seen) && seen.status == RefundPending
    case CreateRefund(_, seen) => SeenSettled(c, seen) && seen.status == RefundPending
    case DisputeFunds(_, _) => false
    case SettleDispute(_, _) => false
    case _ => true
  }

  ghost predicate CalmHandler(w: World, x: Handler) {
    && (x.At? ==> x.t < |w.cases| && CalmPc(w.cases[x.t], x.pc))
    && (!x.FindFee? ==> forall j :: 0 <= j < |x.rest| ==> CalmJob(w, x.rest[j]))
  }

  ghost predicate CalmJob(w: World, j: Job) {
    j.RefundJob? ==> j.t < |w.cases| && HeldIsOver(w.cases[j.t])
  }

  ghost predicate CalmInv(w: World) {
    && (forall t :: 0 <= t < |w.cases| ==> CalmCase(w.cases[t]))
    && (forall h :: h in w.handlers ==> CalmHandler(w, w.handlers[h]))
  }

  ghost predicate CalmGuarantee(c: Case, d: Case) {
    && (HeldIsOver(c) ==> HeldIsOver(d))
    && (GoingBack(c) ==> GoingBack(d))
  }

  lemma CalmClaimStep(h: HandlerId, c: Case, pc: Pc, i: Input)
    requires CaseInv(c) && PcInv(h, c, pc, i.now) && CalmCase(c) && CalmPc(c, pc)
    requires IsClaimPoint(pc) || IsProviderPoint(pc)
    ensures var o := Advance(h, c, pc, i);
            CalmCase(o.rows) && CalmGuarantee(c, o.rows) && (o.next.Some? ==> CalmPc(o.rows, o.next.value))
  {
    hide FundingInv, PaymentInv, AssignmentInv;
  }

  lemma CalmReadStep(h: HandlerId, c: Case, pc: Pc, i: Input)
    requires CaseInv(c) && PcInv(h, c, pc, i.now) && CalmCase(c) && CalmPc(c, pc)
    requires OnlyReadsMoney(pc)
    ensures var o := Advance(h, c, pc, i);
            CalmCase(o.rows) && CalmGuarantee(c, o.rows) && (o.next.Some? ==> CalmPc(o.rows, o.next.value))
  {
    hide FundingInv, HeldInv, ReleaseInv, AssignmentInv;
  }

  lemma CalmStep(h: HandlerId, c: Case, pc: Pc, i: Input)
    requires CaseInv(c) && PcInv(h, c, pc, i.now) && CalmCase(c) && CalmPc(c, pc)
    ensures var o := Advance(h, c, pc, i);
            CalmCase(o.rows) && CalmGuarantee(c, o.rows) && (o.next.Some? ==> CalmPc(o.rows, o.next.value))
  {
    hide Advance, CaseInv, PcInv, CalmCase, CalmPc, CalmGuarantee;
    if OnlyReadsMoney(pc) {
      CalmReadStep(h, c, pc, i);
    } else if IsClaimPoint(pc) || IsProviderPoint(pc) {
      CalmClaimStep(h, c, pc, i);
    } else if OnlyReads(pc) || IsPayoutPoint(pc) || IsPaidPoint(pc) {
      CalmAsideStep(h, c, pc, i);
    } else {
      CalmOtherStep(h, c, pc, i);
    }
  }

  lemma CalmAsideStep(h: HandlerId, c: Case, pc: Pc, i: Input)
    requires CalmCase(c) && (OnlyReads(pc) || IsPayoutPoint(pc) || IsPaidPoint(pc))
    ensures var o := Advance(h, c, pc, i);
            CalmCase(o.rows) && CalmGuarantee(c, o.rows) && (o.next.Some? ==> CalmPc(o.rows, o.next.value))
  {
  }

  lemma CalmOtherStep(h: HandlerId, c: Case, pc: Pc, i: Input)
    requires CaseInv(c) && PcInv(h, c, pc, i.now) && CalmCase(c) && CalmPc(c, pc)
    requires !OnlyReadsMoney(pc) && !IsClaimPoint(pc) && !IsProviderPoint(pc)
    requires !OnlyReads(pc) && !IsPayoutPoint(pc) && !IsPaidPoint(pc)
    ensures var o := Advance(h, c, pc, i);
            CalmCase(o.rows) && CalmGuarantee(c, o.rows) && (o.next.Some? ==> CalmPc(o.rows, o.next.value))
  {
    hide PaymentInv, AssignmentInv;
  }

  /** A calm request starts calmly. */
  lemma CalmBegin(c: Case, r: Request)
    requires CaseInv(c) && CalmCase(c) && Begin(c, r).Some?
    requires !r.RaiseDispute? && !r.ResolveDispute? && !r.AdminRefund?
    ensures CalmPc(c, Begin(c, r).value)
  {
    hide CaseInv;
  }

  /** Other handlers stay calm while the rows change within the guarantee. */
  lemma CalmStable(w: World, v: World, x: Handler)
    requires CalmHandler(w, x) && |w.cases| <= |v.cases|
    requires forall t :: 0 <= t < |w.cases| ==> CalmGuarantee(w.cases[t], v.cases[t])
    ensures CalmHandler(v, x)
  {
    if !x.FindFee? {
      assert forall j :: 0 <= j < |x.rest| && CalmJob(w, x.rest[j]) ==> CalmJob(v, x.rest[j]);
    }
  }

  lemma CalmRunPreserves(w: World, l: Label)
    requires Inv(w) && CalmInv(w) && Enabled(w, l) && l.Run?
    ensures CalmInv(Apply(w, l))
  {
    hide CaseInv, PcInv, CalmCase, CalmPc, Advance, CountersInv;
    var h, x, v := l.h, w.handlers[l.h], Apply(w, l);
    var i := Input(w.now, l.configured, l.success, ProfileFor(w, x.pc));
    assert HandlerInv(w, h, x) && CalmHandler(w, x);
    CalmStep(h, w.cases[x.t], x.pc, i);
    forall k | k in v.handlers ensures CalmHandler(v, v.handlers[k]) {
      if k != h {
        CalmStable(w, v, w.handlers[k]);
      } else {
        CalmStable(w, v, Between(x.rest, x.more));
      }
    }
  }

  lemma CalmPreserved(w: World, l: Label)
    requires Inv(w) && CalmInv(w) && Enabled(w, l) && IsCalm(l)
    ensures CalmInv(Apply(w, l))
  {
    hide CaseInv, PcInv, CalmCase, Advance, Begin, CountersInv;
    var v := Apply(w, l);
    if l.Run? {
      CalmRunPreserves(w, l);
    } else if l.Create? {
      CalmCreatePreserves(w, l);
    } else {
      assert v.cases == w.cases;
      forall k | k in v.handlers ensures CalmHandler(v, v.handlers[k]) {
        if k in w.handlers && v.handlers[k] == w.handlers[k] {
          CalmStable(w, v, w.handlers[k]);
        } else {
          NewHandlerIsCalm(w, l, k);
        }
      }
    }
  }

  lemma CalmCreatePreserves(w: World, l: Label)
    requires CalmInv(w) && Enabled(w, l) && l.Create?
    ensures CalmInv(Apply(w, l))
  {
    var v := Apply(w, l);
    forall k | k in v.handlers && k != l.h ensures CalmHandler(v, v.handlers[k]) {
      CalmStable(w, v, w.handlers[k]);
    }
  }

  lemma NewHandlerIsCalm(w: World, l: Label, k: HandlerId)
    requires Inv(w) && CalmInv(w) && Enabled(w, l) && IsCalm(l) && !l.Run? && !l.Create?
    requires k in Apply(w, l).handlers && (k in w.handlers ==> Apply(w, l).handlers[k] != w.handlers[k])
    ensures CalmHandler(Apply(w, l), Apply(w, l).handlers[k])
  {
    hide PcInv, Advance, CountersInv, PaymentInv, ReleaseInv, RefundInv, AssignmentInv, FundingInv, Begin;
    var v := Apply(w, l);
    if l.Receive? {
      CalmBegin(w.cases[l.t], l.request);
    } else if l.ScanAnomalies? {
      assert forall t :: 0 <= t < |w.cases| ==> CaseInv(w.cases[t]);
      assert Anomalies(w.cases) == {};
    }
  }

  lemma {:induction false} CalmRunInv(ws: seq<World>, ls: seq<Label>, n: nat)
    requires IsCalmRun(ws, ls) && n < |ws|
    ensures CalmInv(ws[n])
  {
    hide Inv;
    if n == 0 {
      assert CalmInv(EMPTY);
    } else {
      CalmRunInv(ws, ls, n - 1);
      RunInv(ws, ls, n - 1);
      assert FromTo(ws[n - 1], ls[n - 1], ws[n]);
      CalmPreserved(ws[n - 1], ls[n - 1]);
    }
  }

  // --- The two main results ---

  /** No escrow ever has both a payout row and a refund row. */
  lemma PaidOrRefunded(ws: seq<World>, ls: seq<Label>, n: nat, t: TaskId)
    requires IsCalmRun(ws, ls) && n < |ws| && t < |ws[n].cases|
    ensures !(ws[n].cases[t].payout.Some? && ws[n].cases[t].refund.Some?)
  {
    hide FundingInv, PaymentInv, HeldInv, RefundInv, AssignmentInv;
    RunInv(ws, ls, n);
    CalmRunInv(ws, ls, n);
    assert CaseInv(ws[n].cases[t]) && CalmCase(ws[n].cases[t]);
  }

  /** What the poster's payment brought in. */
  function Captured(c: Case): int {
    if c.escrow.Some? && c.escrow.value.status != Pending then Charge(c.escrow.value) else 0
  }

  function RefundedOut(c: Case): int {
    if c.refund.Some? && c.refund.value.status == RefundDone then c.refund.value.amount else 0
  }

  function PaidOut(c: Case): int {
    if c.payout.Some? then c.payout.value.amount else 0
  }

  /** The full charge of an escrow that is HELD or REFUND_PENDING. */
  function InCustody(c: Case): int {
    if c.escrow.Some? && (c.escrow.value.status == Held || c.escrow.value.status == RefundPending)
    then Charge(c.escrow.value) else 0
  }

  /** What a RELEASED escrow keeps once the doer's payout is recorded. */
  function Retained(c: Case): int {
    if c.escrow.Some? && c.escrow.value.status == Released then Charge(c.escrow.value) - PaidOut(c) else 0
  }

  /** The sum behind `escrowHeldLkr`. */
  function HeldBudget(c: Case): int {
    if c.escrow.Some? && c.escrow.value.status == Held then c.escrow.value.amounts.budget else 0
  }

  lemma CaseBalances(c: Case)
    requires CaseInv(c) && CalmCase(c)
    ensures Captured(c) == RefundedOut(c) + PaidOut(c) + InCustody(c) + Retained(c)
    ensures 0 <= PaidOut(c) && 0 <= RefundedOut(c) && 0 <= Retained(c) && 0 <= HeldBudget(c) <= InCustody(c)
  {
    hide FundingInv, HeldInv, AssignmentInv;
    if c.escrow.Some? {
      Fees.SplitBound(c.escrow.value.amounts);
    }
  }

  lemma {:induction false} TableBalances(cs: seq<Case>)
    requires forall t :: 0 <= t < |cs| ==> CaseInv(cs[t]) && CalmCase(cs[t])
    ensures Sum(cs, Captured) == Sum(cs, RefundedOut) + Sum(cs, PaidOut) + Sum(cs, InCustody) + Sum(cs, Retained)
    ensures 0 <= Sum(cs, RefundedOut) && 0 <= Sum(cs, PaidOut) && 0 <= Sum(cs, Retained)
    ensures 0 <= Sum(cs, HeldBudget) <= Sum(cs, InCustody)
  {
    hide CaseInv, CalmCase, Captured, RefundedOut, PaidOut, InCustody, Retained, HeldBudget;
    if cs == [] {
    } else {
      TableBalances(cs[..|cs| - 1]);
      CaseBalances(cs[|cs| - 1]);
    }
  }

  /** In every calm run, over all tasks: completed refunds and payouts never exceed the
      captured charges, and what remains is exactly the charges of HELD and REFUND_PENDING
      escrows plus what RELEASED ones retain; the held sum an admin sees is covered by it. */
  lemma BooksBalance(ws: seq<World>, ls: seq<Label>, n: nat)
    requires IsCalmRun(ws, ls) && n < |ws|
    ensures var cs := ws[n].cases;
            && Sum(cs, RefundedOut) + Sum(cs, PaidOut) <= Sum(cs, Captured)
            && Sum(cs, Captured) - Sum(cs, RefundedOut) - Sum(cs, PaidOut) == Sum(cs, InCustody) + Sum(cs, Retained)
            && Sum(cs, HeldBudget) <= Sum(cs, InCustody)
  {
    hide CaseInv, CalmCase;
    RunInv(ws, ls, n);
    CalmRunInv(ws, ls, n);
    TableBalances(ws[n].cases);
  }
}
