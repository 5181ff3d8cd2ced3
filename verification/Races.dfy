/** Runs that show where the guarantees end: each of them is a run of the system. */
module Races {
  import opened Wrappers
  import opened Rows
  import opened Handlers
  import opened Invariants
  import opened World
  import opened Safety
  import Finality
  import Fees
  import Orders

  // --- Building runs ---

  /** A reachable world with one task, whose handlers all stand on it. */
  ghost predicate OneTask(w: World, c: Case, pcs: map<HandlerId, Pc>) {
    && Reaches(w) && w.cases == [c] && w.now == 0
    && 2 in w.profiles && w.profiles[2].approved && w.profiles[2].tier == Gold
    && (forall h :: h in w.handlers <==> h in pcs)
    && (forall h :: h in pcs ==> w.handlers[h] == At(0, pcs[h], [], false))
  }

  lemma OneTaskIs(w: World, c: Case, pcs: map<HandlerId, Pc>)
    requires OneTask(w, c, pcs)
    ensures Reaches(w) && w.cases == [c]
    ensures CaseInv(c)
    ensures pcs == map[] ==> w.handlers == map[]
  {
    hide CaseInv, HandlersInv, CountersInv;
    ReachesInv(w);
    assert w.cases[0] == c;
  }

  function WithPoint(pcs: map<HandlerId, Pc>, h: HandlerId, next: Option<Pc>): map<HandlerId, Pc> {
    if next.Some? then pcs[h := next.value] else pcs - {h}
  }

  /** A request arrives. */
  lemma Arrive(w: World, c: Case, pcs: map<HandlerId, Pc>, h: HandlerId, r: Request) returns (v: World)
    requires OneTask(w, c, pcs) && h !in pcs
    ensures OneTask(v, c, WithPoint(pcs, h, Begin(c, r)))
  {
    hide Begin;
    v := Apply(w, Receive(h, 0, r));
    Extend(w, Receive(h, 0, r));
  }

  /** A handler runs its next statement; the provider is configured and accepts. */
  lemma Go(w: World, c: Case, pcs: map<HandlerId, Pc>, h: HandlerId) returns (v: World)
    requires OneTask(w, c, pcs) && h in pcs
    requires pcs[h].CheckProfile? ==> pcs[h].doer == 2
    ensures var profile := if pcs[h].CheckProfile? then Some(Profile(true, Gold, w.profiles[2].jobs)) else None;
            var o := Advance(h, c, pcs[h], Input(0, true, true, profile));
            OneTask(v, o.rows, WithPoint(pcs, h, o.next))
    ensures Finality.Leads(w, v)
  {
    hide Advance, Finality.Leads;
    v := Apply(w, Run(h, true, true));
    Extend(w, Run(h, true, true));
    Finality.LeadsNowhere(w);
    Finality.LeadsOn(w, w, Run(h, true, true));
  }

  /** A handler crashes. */
  lemma Drop(w: World, c: Case, pcs: map<HandlerId, Pc>, h: HandlerId) returns (v: World)
    requires OneTask(w, c, pcs) && h in pcs
    ensures OneTask(v, c, pcs - {h})
  {
    v := Apply(w, Crash(h));
    Extend(w, Crash(h));
  }

  const UUID: string := "00000000-0000-0000-0000-000000000000"
  const SPLIT: Fees.Split := Fees.Split(50010, 2501, 7502, 2501, 42509)

  /** The poster 1 creates a task; doer 2 is approved. */
  lemma ToCreated() returns (w: World, c: Case)
    ensures c == NewCase(UUID, 1, 50010, EscrowMode, Bronze)
    ensures OneTask(w, c, map[1 := InsertMoney(SPLIT)])
  {
    hide Reaches, Fees.IsSplit;
    Fees.SplitCanMissByOne();
    assert Reaches(EMPTY) by { EmptyReaches(); }
    var w0 := Apply(EMPTY, Review(2, true, Gold));
    Extend(EMPTY, Review(2, true, Gold));
    c := NewCase(UUID, 1, 50010, EscrowMode, Bronze);
    var create := Create(1, UUID, 1, EscrowMode, Bronze, SPLIT);
    assert Orders.IsUuid(UUID);
    w := Apply(w0, create);
    Extend(w0, create);
  }

  lemma EmptyReaches()
    ensures Reaches(EMPTY)
  {
    var ws, ls: seq<Label> := [EMPTY], [];
    assert IsRun(ws, ls) && ws[|ls|] == EMPTY;
  }

  /** And starts the checkout. */
  lemma ToCheckout() returns (w: World, c: Case)
    ensures OneTask(w, c, map[])
    ensures c == SetEscrowOrder(InsertMoneyRow(NewCase(UUID, 1, 50010, EscrowMode, Bronze), SPLIT))
  {
    hide OneTask, Finality.Leads;
    var w1, c0 := ToCreated();
    var pcs := map[1 := InsertMoney(SPLIT)];
    var w2 := Go(w1, c0, pcs, 1);
    var c1 := InsertMoneyRow(c0, SPLIT);
    var w3 := Arrive(w2, c1, WithPoint(pcs, 1, None), 1, InitiatePayment(1));
    var pcs' := WithPoint(WithPoint(pcs, 1, None), 1, Some(WriteEscrowOrder));
    w := Go(w3, c1, pcs', 1);
    c := SetEscrowOrder(c1);
    assert WithPoint(pcs', 1, None) == map[];
  }

  /** A notification with or without a payment id captures the money, and the task opens. */
  lemma ToCaptured(payment: Option<PaymentId>) returns (w: World, c: Case)
    ensures OneTask(w, c, map[]) && IsHeld(c) && c.escrow.value.paymentId == payment
    ensures c.task.status == Open && c.task.doerId.None? && c.task.posterId == 1
    ensures c.task.mode == EscrowMode && c.task.requiredTier == Bronze
    ensures c.refund.None? && c.payout.None? && c.dispute.None? && c.trail.releases == 0
  {
    var w0, c0 := ToCheckout();
    var order := Orders.EscrowOrder(UUID);
    var notify := Notify(1, order, payment, Some(0));
    assert OwnsEscrowOrder(w0, 0, order);
    var w1 := Apply(w0, notify);
    Extend(w0, notify);
    var pcs := map[1 := FundEscrow(c0.escrow.value, payment)];
    assert OneTask(w1, c0, pcs);
    var w2 := Go(w1, c0, pcs, 1);
    c := ApplyEscrowPayment(c0, 1, payment).rows;
    var pcs' := WithPoint(pcs, 1, Some(Announce));
    w := Drop(w2, c, pcs', 1);
    assert pcs' - {1} == map[];
  }

  /** Doer 2 accepts. */
  lemma ToAssigned() returns (w: World, c: Case)
    ensures OneTask(w, c, map[]) && IsHeld(c) && c.escrow.value.paymentId == Some(7)
    ensures c.task.status == Assigned && c.task.doerId == Some(2) && c.task.posterId == 1 && c.task.mode == EscrowMode
    ensures c.refund.None? && c.payout.None? && c.dispute.None? && c.trail.releases == 0
  {
    hide OneTask, Finality.Leads;
    var w0, c0 := ToCaptured(Some(7));
    var w1 := Arrive(w0, c0, map[], 1, Accept(2));
    var p1 := WithPoint(map[], 1, Some(CheckProfile(2, Bronze, EscrowMode)));
    var w2 := Go(w1, c0, p1, 1);
    var p2 := WithPoint(p1, 1, Some(CheckFunds(2)));
    var w3 := Go(w2, c0, p2, 1);
    var p3 := WithPoint(p2, 1, Some(Assign(2)));
    var w4 := Go(w3, c0, p3, 1);
    c := AssignDoer(c0, 1, 2).rows;
    var p4 := WithPoint(p3, 1, Some(EmitAccept(2)));
    w := Drop(w4, c, p4, 1);
    assert p4 - {1} == map[];
  }

  /** Doer 2 completes, and the poster's confirmation stands before its release. */
  lemma ToRelease() returns (w: World, c: Case)
    ensures OneTask(w, c, map[1 := ReleaseFunds(Some(2), ByConfirm(1))]) && IsHeld(c)
            && c.escrow.value.paymentId == Some(7)
    ensures c.task.status == Completed && c.task.doerId == Some(2) && c.task.posterId == 1 && c.task.mode == EscrowMode
    ensures c.refund.None? && c.payout.None? && c.dispute.None? && c.trail.releases == 0
  {
    hide OneTask, Finality.Leads;
    var w0, c0 := ToAssigned();
    var w1 := Arrive(w0, c0, map[], 1, Complete(2));
    var p1 := WithPoint(map[], 1, Some(MarkCompleted(2)));
    var w2 := Go(w1, c0, p1, 1);
    c := WriteCompleted(c0, 2, 0);
    var p2 := WithPoint(p1, 1, None);
    var w3 := Arrive(w2, c, p2, 1, Confirm(1));
    var p3 := WithPoint(p2, 1, Some(CheckHeld(1, Some(2))));
    w := Go(w3, c, p3, 1);
    assert WithPoint(p3, 1, Some(ReleaseFunds(Some(2), ByConfirm(1)))) == map[1 := ReleaseFunds(Some(2), ByConfirm(1))];
  }

  // --- Where the guarantees end ---

  /** The release of `ToRelease` is followed by its payout row. */
  lemma PayDoer(w: World, c: Case, pcs: map<HandlerId, Pc>) returns (v: World, d: Case, pc: Pc)
    requires OneTask(w, c, pcs) && 1 in pcs && pcs[1] == ReleaseFunds(Some(2), ByConfirm(1))
             && IsHeld(c) && c.payout.None?
    ensures d.payout.Some? && EscrowIs(d, Released) && d.refund == c.refund && d.dispute == c.dispute
    ensures d.escrow.value.paymentId == c.escrow.value.paymentId
    ensures d.trail.dispatches == c.trail.dispatches && d.trail.successes == c.trail.successes
    ensures pc.Dispatch? && OneTask(v, d, pcs[1 := pc])
  {
    hide OneTask, Finality.Leads;
    var w1 := Go(w, c, pcs, 1);
    var c1 := ReleaseHeld(c, 1, Some(2), ByConfirm(1), 0).rows;
    var p1 := pcs[1 := ReadReleased(Some(2))];
    var w2 := Go(w1, c1, p1, 1);
    var net := c1.escrow.value.amounts.netPayout;
    var p2 := p1[1 := LookupPayout(2, net)];
    var w3 := Go(w2, c1, p2, 1);
    var p3 := p2[1 := CreatePayout(2, net)];
    v := Go(w3, c1, p3, 1);
    d := InsertPayout(c1, 2, net).rows;
    pc := Dispatch(2, net);
    assert p3[1 := pc] == pcs[1 := pc];
  }

  /** An admin refund read HELD and stands before its claim, and a release before its own. */
  lemma ToRace() returns (w: World, c: Case, pcs: map<HandlerId, Pc>)
    ensures OneTask(w, c, pcs) && IsHeld(c) && c.payout.None? && c.refund.None? && c.escrow.value.paymentId == Some(7)
    ensures c.trail.dispatches == 0 && c.trail.successes == 0
    ensures pcs == map[1 := ReleaseFunds(Some(2), ByConfirm(1)), 2 := ClaimFunds(AdminReason, c.escrow.value)]
  {
    hide OneTask, Finality.Leads;
    var w0, c0 := ToRelease();
    c := c0;
    var p0 := map[1 := ReleaseFunds(Some(2), ByConfirm(1))];
    var w1 := Arrive(w0, c, p0, 2, AdminRefund);
    var p1 := p0[2 := StartRefund(AdminReason)];
    var w2 := Go(w1, c, p1, 2);
    var p2 := p1[2 := LookupRefund(AdminReason, c.escrow.value)];
    w := Go(w2, c, p2, 2);
    pcs := p2[2 := ClaimFunds(AdminReason, c.escrow.value)];
    OneTaskIs(w, c, pcs);
  }

  lemma ClaimMoney(w: World, c: Case, pcs: map<HandlerId, Pc>, h: HandlerId)
    returns (v: World, d: Case, ps: map<HandlerId, Pc>)
    requires OneTask(w, c, pcs) && h in pcs && pcs[h] == ReadRefund
    requires c.refund.Some? && c.refund.value.status == Queued && c.escrow.Some? && c.escrow.value.paymentId == Some(7)
    ensures OneTask(v, d, ps) && ps == pcs[h := CallRefund(7)] && d == ClaimRefund(c, h).rows
  {
    hide OneTask, Finality.Leads;
    var w1 := Go(w, c, pcs, h);
    var p1 := pcs[h := ClaimExecution(7)];
    v := Go(w1, c, p1, h);
    d := ClaimRefund(c, h).rows;
    ps := p1[h := CallRefund(7)];
    assert ps == pcs[h := CallRefund(7)];
  }

  /** A refund that is read is claimed, sent to the provider and recorded. */
  lemma RefundMoney(w: World, c: Case, pcs: map<HandlerId, Pc>, h: HandlerId) returns (v: World, d: Case)
    requires OneTask(w, c, pcs) && h in pcs && pcs[h] == ReadRefund
    requires c.refund.Some? && c.refund.value.status == Queued && c.escrow.Some? && c.escrow.value.paymentId == Some(7)
    ensures OneTask(v, d, pcs - {h})
    ensures EscrowIs(d, Refunded) && d.refund.Some? && d.refund.value.status == RefundDone
    ensures d.payout == c.payout && d.trail.dispatches == c.trail.dispatches
            && d.trail.successes == c.trail.successes + 1
  {
    hide OneTask, Finality.Leads;
    var w2, c2, p2 := ClaimMoney(w, c, pcs, h);
    var w3 := Go(w2, c2, p2, h);
    var c3 := CallProvider(c2, true);
    var p3 := p2[h := RecordRefund(true)];
    v := Go(w3, c3, p3, h);
    d := FinishRefund(c3);
    assert p3 - {h} == pcs - {h};
  }

  /** With admin refunds, a claim whose count is not inspected moves the money twice: the
      admin reads HELD, the release commits and its payout is dispatched, the claim matches
      no row, and the provider refunds the whole charge all the same. */
  lemma AdminRefundRacesRelease() returns (w: World)
    ensures Reaches(w) && |w.cases| == 1
    ensures var c := w.cases[0];
            && c.payout.Some? && c.trail.dispatches == 1
            && c.refund.Some? && c.refund.value.status == RefundDone && c.trail.successes == 1
  {
    hide OneTask, Finality.Leads;
    var w0, c0, p0 := ToRace();
    var seen := c0.escrow.value;
    var w1, c1, pc := PayDoer(w0, c0, p0);
    var p1 := p0[1 := pc];
    var w2 := Go(w1, c1, p1, 1);
    var c2 := DispatchPayout(c1);
    var p2 := p1[1 := SettlePayout(pc.doer, pc.amount)];
    var w3 := Go(w2, c2, p2, 2);
    var p3 := p2[2 := CreateRefund(AdminReason, seen)];
    var w4 := Go(w3, c2, p3, 2);
    var c4 := InsertRefund(c2, Charge(seen), AdminReason).rows;
    var p4 := p3[2 := ReadRefund];
    var v, d := RefundMoney(w4, c4, p4, 2);
    w := v;
    OneTaskIs(v, d, p4 - {2});
  }

  /** A dispute resolved for the poster leaves the escrow REFUNDED although no refund exists
      and the provider was never called. */
  lemma RefundedOnPaper() returns (w: World)
    ensures Reaches(w) && |w.cases| == 1
    ensures EscrowIs(w.cases[0], Refunded) && w.cases[0].refund.None? && w.cases[0].trail.calls == 0
  {
    hide OneTask, Finality.Leads, FundingInv, PaymentInv, HeldInv, ReleaseInv, AssignmentInv;
    var w0, c0 := ToAssigned();
    OneTaskIs(w0, c0, map[]);
    var w1 := Arrive(w0, c0, map[], 1, RaiseDispute(1));
    var p1 := WithPoint(map[], 1, Some(DisputeFunds(1, EscrowMode)));
    var w2 := Go(w1, c0, p1, 1);
    var c1 := Rows.RaiseDispute(c0, 1, EscrowMode).rows;
    var p2 := WithPoint(p1, 1, None);
    var w3 := Arrive(w2, c1, p2, 1, ResolveDispute(true));
    var p3 := WithPoint(p2, 1, Some(SettleDispute(true, true)));
    w := Go(w3, c1, p3, 1);
    OneTaskIs(w, Rows.ResolveDispute(c1, true, true), WithPoint(p3, 1, None));
  }

  /** A release whose handler dies before the payout row leaves the doer unpaid, for good. */
  lemma ReleaseWithoutPayout() returns (w: World)
    ensures Reaches(w) && |w.cases| == 1 && w.handlers == map[]
    ensures EscrowIs(w.cases[0], Released) && w.cases[0].trail.releases == 1 && w.cases[0].payout.None?
    ensures Finality.Forever(w, 0, Finality.IS_UNPAID)
  {
    hide OneTask, Finality.Leads, PaymentInv, RefundInv, AssignmentInv, Finality.Forever;
    var w0, c0 := ToRelease();
    var p0 := map[1 := ReleaseFunds(Some(2), ByConfirm(1))];
    var w1 := Go(w0, c0, p0, 1);
    var c1 := ReleaseHeld(c0, 1, Some(2), ByConfirm(1), 0).rows;
    var p1 := p0[1 := ReadReleased(Some(2))];
    w := Drop(w1, c1, p1, 1);
    assert p1 - {1} == map[];
    OneTaskIs(w0, c0, p0);
    OneTaskIs(w, c1, map[]);
    Finality.UnpaidIsFinalExactly(w, 0);
  }

  /** A dispute resolved for the doer leaves the escrow RELEASED although no release ever
      matched and no payout exists. */
  lemma ReleasedOnPaper() returns (w: World)
    ensures Reaches(w) && |w.cases| == 1
    ensures EscrowIs(w.cases[0], Released) && w.cases[0].trail.releases == 0 && w.cases[0].payout.None?
  {
    hide OneTask, Finality.Leads, FundingInv, PaymentInv, AssignmentInv;
    var w0, c0 := ToAssigned();
    OneTaskIs(w0, c0, map[]);
    var w1 := Arrive(w0, c0, map[], 1, RaiseDispute(1));
    var p1 := WithPoint(map[], 1, Some(DisputeFunds(1, EscrowMode)));
    var w2 := Go(w1, c0, p1, 1);
    var c1 := Rows.RaiseDispute(c0, 1, EscrowMode).rows;
    var p2 := WithPoint(p1, 1, None);
    var w3 := Arrive(w2, c1, p2, 1, ResolveDispute(false));
    var p3 := WithPoint(p2, 1, Some(SettleDispute(true, false)));
    w := Go(w3, c1, p3, 1);
    OneTaskIs(w, Rows.ResolveDispute(c1, true, false), WithPoint(p3, 1, None));
  }

  /** A notification without a payment id captures the money all the same; after a cancel
      no path of the system ever gets it back. */
  lemma UnidentifiedPayment() returns (w: World)
    ensures Reaches(w) && |w.cases| == 1 && w.handlers == map[]
    ensures AwaitsRefund(w.cases[0]) && w.cases[0].escrow.value.paymentId.None?
    ensures !Finality.Possible(w, 0, Finality.CONFIRMED)
  {
    hide OneTask, Finality.Possible, FundingInv, HeldInv, ReleaseInv, RefundInv, AssignmentInv;
    var w0, c0 := ToCaptured(None);
    var w1 := Arrive(w0, c0, map[], 1, Cancel(1));
    var p1 := WithPoint(map[], 1, Some(CancelFunds(EscrowMode)));
    var w2 := Go(w1, c0, p1, 1);
    var c1 := CancelTask(c0, EscrowMode).rows;
    var p2 := p1[1 := ReadCancelled];
    w := Drop(w2, c1, p2, 1);
    assert p2 - {1} == map[];
    OneTaskIs(w, c1, map[]);
    Finality.UnidentifiedIsLost(w, 0);
  }

  /** A start that read ASSIGNED before a cancel committed writes after it: the task is
      IN_PROGRESS again while its money is on the way back. */
  lemma StaleStartRevivesTask() returns (w: World)
    ensures Reaches(w) && |w.cases| == 1
    ensures w.cases[0].trail.cancels == 1 && w.cases[0].task.status == InProgress && EscrowIs(w.cases[0], RefundPending)
  {
    hide OneTask, Finality.Leads, FundingInv, PaymentInv, ReleaseInv, RefundInv, AssignmentInv;
    var w0, c0 := ToAssigned();
    OneTaskIs(w0, c0, map[]);
    var w1 := Arrive(w0, c0, map[], 1, Start(2));
    var p1 := WithPoint(map[], 1, Some(MarkStarted));
    var w2 := Arrive(w1, c0, p1, 2, Cancel(1));
    var p2 := p1[2 := CancelFunds(EscrowMode)];
    var w3 := Go(w2, c0, p2, 2);
    var c1 := CancelTask(c0, EscrowMode).rows;
    var p3 := p2[2 := ReadCancelled];
    w := Go(w3, c1, p3, 1);
    OneTaskIs(w, WriteStarted(c1), p3 - {1});
  }

  /** A dispute that read the task before a release committed takes a RELEASED escrow to
      DISPUTED. */
  lemma DisputeReopensReleased() returns (w: World)
    ensures Reaches(w) && |w.cases| == 1
    ensures w.cases[0].payout.Some? && EscrowIs(w.cases[0], EscrowDisputed)
  {
    hide OneTask, Finality.Leads;
    var w0, c0 := ToRelease();
    var p0 := map[1 := ReleaseFunds(Some(2), ByConfirm(1))];
    var w1 := Arrive(w0, c0, p0, 2, RaiseDispute(1));
    var p1 := p0[2 := DisputeFunds(1, EscrowMode)];
    var w2, c1, pc := PayDoer(w1, c0, p1);
    w := Go(w2, c1, p1[1 := pc], 2);
    OneTaskIs(w, Rows.RaiseDispute(c1, 1, EscrowMode).rows, p1[1 := pc] - {2});
  }

  /** An admin marks a payout paid between its dispatch and its last write, and the last
      write puts it back to PENDING. */
  lemma CreationOverwritesPaid() returns (paid: World, w: World)
    ensures Reaches(paid) && Finality.Holds(paid, 0, Finality.IS_PAID)
    ensures Finality.Leads(paid, w)
    ensures |w.cases| == 1 && w.cases[0].payout.Some? && w.cases[0].payout.value.status == PayoutPending
    ensures !Finality.Forever(paid, 0, Finality.IS_PAID)
  {
    hide OneTask, Finality.Leads;
    var w0, c0 := ToRelease();
    var p0 := map[1 := ReleaseFunds(Some(2), ByConfirm(1))];
    var w1, c1, pc := PayDoer(w0, c0, p0);
    var p1 := p0[1 := pc];
    var w2 := Go(w1, c1, p1, 1);
    var c2 := DispatchPayout(c1);
    var p2 := p1[1 := SettlePayout(pc.doer, pc.amount)];
    var w3 := Arrive(w2, c2, p2, 2, MarkPaid);
    var p3 := p2[2 := PayPayout];
    paid := Go(w3, c2, p3, 2);
    var c3 := SetPayout(c2, PayoutPaid);
    OneTaskIs(paid, c3, p3 - {2});
    w := Go(paid, c3, p3 - {2}, 1);
    OneTaskIs(w, SetPayout(c3, PayoutPending), (p3 - {2})[1 := EmitRelease(Some(pc.doer), pc.amount)]);
    Finality.Refutes(paid, w, 0, Finality.IS_PAID);
  }

  // --- Transactions in flight together ---

  /** A poster's confirmation and her dispute of the same completed task, each about to commit. */
  lemma ConfirmMeetsDispute() returns (w: World, c: Case)
    ensures OneTask(w, c, map[1 := ReleaseFunds(Some(2), ByConfirm(1)), 2 := DisputeFunds(1, EscrowMode)])
    ensures c.task.status == Completed && IsHeld(c) && c.dispute.None?
  {
    hide OneTask, Finality.Leads;
    var w0, c0 := ToRelease();
    c := c0;
    var p0 := map[1 := ReleaseFunds(Some(2), ByConfirm(1))];
    w := Arrive(w0, c, p0, 2, RaiseDispute(1));
    assert p0[2 := DisputeFunds(1, EscrowMode)]
        == map[1 := ReleaseFunds(Some(2), ByConfirm(1)), 2 := DisputeFunds(1, EscrowMode)];
  }

  /** A start that read ASSIGNED is still to write when the poster's confirmation is admitted. */
  lemma ConfirmMeetsStart() returns (w: World, c: Case)
    ensures OneTask(w, c, map[1 := ReleaseFunds(Some(2), ByConfirm(1)), 3 := MarkStarted])
    ensures IsHeld(c) && c.task.posterId == 1 && c.task.mode == EscrowMode && c.dispute.None?
  {
    hide OneTask, Finality.Leads;
    var w0, c0 := ToAssigned();
    var w1 := Arrive(w0, c0, map[], 3, Start(2));
    var p1 := map[3 := MarkStarted];
    var w2 := Arrive(w1, c0, p1, 1, Complete(2));
    var w3 := Go(w2, c0, p1[1 := MarkCompleted(2)], 1);
    c := WriteCompleted(c0, 2, 0);
    assert p1[1 := MarkCompleted(2)] - {1} == p1;
    var w4 := Arrive(w3, c, p1, 1, Confirm(1));
    w := Go(w4, c, p1[1 := CheckHeld(1, Some(2))], 1);
    assert p1[1 := CheckHeld(1, Some(2))][1 := ReleaseFunds(Some(2), ByConfirm(1))]
        == map[1 := ReleaseFunds(Some(2), ByConfirm(1)), 3 := MarkStarted];
  }

  /** It puts the task back to IN_PROGRESS, and a cancel comes. */
  lemma ConfirmMeetsCancel() returns (w: World, c: Case)
    ensures OneTask(w, c, map[1 := ReleaseFunds(Some(2), ByConfirm(1)), 2 := CancelFunds(EscrowMode)])
    ensures c.task.status == InProgress && IsHeld(c) && c.dispute.None?
  {
    hide OneTask, Finality.Leads;
    var w0, c0 := ConfirmMeetsStart();
    var p0 := map[1 := ReleaseFunds(Some(2), ByConfirm(1)), 3 := MarkStarted];
    var w1 := Go(w0, c0, p0, 3);
    c := WriteStarted(c0);
    var p1 := map[1 := ReleaseFunds(Some(2), ByConfirm(1))];
    assert p0 - {3} == p1;
    w := Arrive(w1, c, p1, 2, Cancel(1));
    assert p1[2 := CancelFunds(EscrowMode)]
        == map[1 := ReleaseFunds(Some(2), ByConfirm(1)), 2 := CancelFunds(EscrowMode)];
  }

  /** Poster and doer both dispute a task, and the first dispute is already being resolved
      when the second is about to commit. */
  lemma ResolutionMeetsDispute(refundPoster: bool) returns (w: World, c: Case)
    ensures OneTask(w, c, map[1 := SettleDispute(true, refundPoster), 2 := DisputeFunds(2, EscrowMode)])
    ensures c.task.status == TaskDisputed && EscrowIs(c, EscrowDisputed) && c.dispute.Some?
  {
    hide OneTask, Finality.Leads;
    var w0, c0 := ToAssigned();
    var w1 := Arrive(w0, c0, map[], 2, RaiseDispute(2));
    var p1 := map[2 := DisputeFunds(2, EscrowMode)];
    var w2 := Arrive(w1, c0, p1, 1, RaiseDispute(1));
    var w3 := Go(w2, c0, p1[1 := DisputeFunds(1, EscrowMode)], 1);
    c := Rows.RaiseDispute(c0, 1, EscrowMode).rows;
    assert p1[1 := DisputeFunds(1, EscrowMode)] - {1} == p1;
    w := Arrive(w3, c, p1, 1, ResolveDispute(refundPoster));
    assert p1[1 := SettleDispute(true, refundPoster)]
        == map[1 := SettleDispute(true, refundPoster), 2 := DisputeFunds(2, EscrowMode)];
  }

  // --- A crash between claim and result ---

  /** The refund of `t` was claimed and no handler is left to record its result. */
  ghost predicate Stuck(w: World, t: TaskId) {
    && t < |w.cases| && w.cases[t].refund.Some? && w.cases[t].refund.value.status == Processing
    && forall h :: h in w.handlers && w.handlers[h].At? && w.handlers[h].t == t ==> !InFlight(w.handlers[h].pc)
  }

  /** A cancel gets as far as the claim of its refund and crashes there. */
  lemma CrashAfterClaim() returns (w: World)
    ensures Reaches(w) && Stuck(w, 0)
  {
    hide OneTask, Finality.Leads, FundingInv, PaymentInv, HeldInv, ReleaseInv, RefundInv, AssignmentInv;
    var w0, c0 := ToAssigned();
    var w1 := Arrive(w0, c0, map[], 1, Cancel(1));
    var p1 := WithPoint(map[], 1, Some(CancelFunds(EscrowMode)));
    var w2 := Go(w1, c0, p1, 1);
    var c1 := CancelTask(c0, EscrowMode).rows;
    var p2 := p1[1 := ReadCancelled];
    var w3 := Go(w2, c1, p2, 1);
    var p3 := p2[1 := StartRefund(CancelReason)];
    var w4 := Go(w3, c1, p3, 1);
    var seen := c1.escrow.value;
    var p4 := p3[1 := LookupRefund(CancelReason, seen)];
    var w5 := Go(w4, c1, p4, 1);
    var p5 := p4[1 := ClaimFunds(CancelReason, seen)];
    w := CrashFromClaim(w5, c1, p5, seen);
  }

  lemma CrashFromClaim(w0: World, c: Case, pcs: map<HandlerId, Pc>, seen: Escrow) returns (w: World)
    requires OneTask(w0, c, pcs) && pcs == map[1 := ClaimFunds(CancelReason, seen)]
    requires EscrowIs(c, RefundPending) && c.refund.None? && c.escrow.value.paymentId == Some(7)
    ensures Reaches(w) && Stuck(w, 0)
  {
    hide OneTask, Finality.Leads, CaseInv;
    var w1 := Go(w0, c, pcs, 1);
    var p1 := pcs[1 := CreateRefund(CancelReason, seen)];
    var w2 := Go(w1, c, p1, 1);
    var c2 := InsertRefund(c, Charge(seen), CancelReason).rows;
    var p2 := p1[1 := ReadRefund];
    var w3, c3, p3 := ClaimMoney(w2, c2, p2, 1);
    w := Drop(w3, c3, p3, 1);
    assert p3 - {1} == map[];
    OneTaskIs(w, c3, map[]);
  }

  lemma StuckCase(h: HandlerId, c: Case, pc: Pc, i: Input)
    requires c.refund.Some? && c.refund.value.status == Processing && !InFlight(pc)
    ensures var o := Advance(h, c, pc, i);
            o.rows.refund == c.refund && (o.next.Some? ==> !InFlight(o.next.value))
  {
  }

  lemma BeginNotInFlight(c: Case, r: Request)
    ensures Begin(c, r).Some? ==> !InFlight(Begin(c, r).value)
  {
  }

  lemma StuckStays(w: World, l: Label, v: World, t: TaskId)
    requires FromTo(w, l, v) && Stuck(w, t)
    ensures Stuck(v, t) && v.cases[t].refund == w.cases[t].refund
  {
    hide Advance, Begin;
    RowsAfter(w, l, v, t);
    if Moved(w, l).Some? && Moved(w, l).value.0 == t {
      StuckCase(l.h, w.cases[t], Moved(w, l).value.1, InputOf(w, l));
    } else if l.Receive? {
      BeginNotInFlight(w.cases[l.t], l.request);
    }
  }

  /** A refund whose executor crashed between claim and result keeps its row, PROCESSING,
      in every later world of every run: no sweep, cancel, notification or retry moves it. */
  lemma {:induction false} StuckForever(ws: seq<World>, ls: seq<Label>, i: nat, j: nat, t: TaskId)
    requires IsRun(ws, ls) && i <= j < |ws| && Stuck(ws[i], t)
    ensures Stuck(ws[j], t) && ws[j].cases[t].refund == ws[i].cases[t].refund
    decreases j - i
  {
    hide FromTo, Stuck;
    if i == j {
    } else {
      StuckForever(ws, ls, i, j - 1, t);
      assert FromTo(ws[j - 1], ls[j - 1], ws[j]);
      StuckStays(ws[j - 1], ls[j - 1], ws[j], t);
      assert t < |ws[j - 1].cases| && t < |ws[i].cases| by { StuckInRange(ws[j - 1], t); StuckInRange(ws[i], t); }
    }
  }

  lemma StuckInRange(w: World, t: TaskId)
    requires Stuck(w, t)
    ensures t < |w.cases|
  {
  }
}
