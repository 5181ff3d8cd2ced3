/** Exactly when the guarantees that do not hold of every run fail. */
module Limits {
  import opened Wrappers
  import opened Rows
  import opened Handlers
  import opened Invariants
  import opened World
  import opened Safety
  import opened History

  // --- Runs without disputes ---

  predicate IsUndisputed(l: Label) {
    l.Receive? ==> !l.request.RaiseDispute? && !l.request.ResolveDispute?
  }

  /** A run without disputes; admin refunds may come at any time. */
  ghost predicate IsUndisputedRun(ws: seq<World>, ls: seq<Label>) {
    IsRun(ws, ls) && forall i :: 0 <= i < |ls| ==> IsUndisputed(ls[i])
  }

  predicate UndisputedCase(c: Case) {
    && c.dispute.None?
    && !EscrowIs(c, EscrowDisputed)
    && (c.escrow.Some? && c.refund.None? ==> (c.escrow.value.status == Released <==> c.trail.releases == 1))
    && (EscrowIs(c, Refunded) <==> c.refund.Some? && c.refund.value.status == RefundDone)
  }

  predicate UndisputedHandler(x: Handler) {
    x.At? ==> !x.pc.DisputeFunds? && !x.pc.SettleDispute?
  }

  ghost predicate UndisputedInv(w: World) {
    && (forall t :: 0 <= t < |w.cases| ==> UndisputedCase(w.cases[t]))
    && (forall h :: h in w.handlers ==> UndisputedHandler(w.handlers[h]))
  }

  predicate Undisputed(o: Outcome) {
    UndisputedCase(o.rows) && (o.next.Some? ==> !o.next.value.DisputeFunds? && !o.next.value.SettleDispute?)
  }

  lemma UndisputedMoneyStep(h: HandlerId, c: Case, pc: Pc, i: Input)
    requires CaseInv(c) && PcInv(h, c, pc, i.now) && UndisputedCase(c)
    requires pc.ReleaseFunds? || IsClaimPoint(pc) || IsProviderPoint(pc)
    ensures Undisputed(Advance(h, c, pc, i))
  {
    hide FundingInv, PaymentInv, AssignmentInv;
  }

  lemma UndisputedOtherStep(h: HandlerId, c: Case, pc: Pc, i: Input)
    requires CaseInv(c) && UndisputedCase(c) && !pc.DisputeFunds? && !pc.SettleDispute?
    requires !pc.ReleaseFunds? && !IsClaimPoint(pc) && !IsProviderPoint(pc)
    ensures Undisputed(Advance(h, c, pc, i))
  {
    hide FundingInv, PaymentInv, AssignmentInv;
  }

  lemma UndisputedStep(h: HandlerId, c: Case, pc: Pc, i: Input)
    requires CaseInv(c) && PcInv(h, c, pc, i.now) && UndisputedCase(c) && !pc.DisputeFunds? && !pc.SettleDispute?
    ensures Undisputed(Advance(h, c, pc, i))
  {
    hide CaseInv, PcInv, UndisputedCase, Undisputed, Advance;
    if pc.ReleaseFunds? || IsClaimPoint(pc) || IsProviderPoint(pc) {
      UndisputedMoneyStep(h, c, pc, i);
    } else {
      UndisputedOtherStep(h, c, pc, i);
    }
  }

  lemma BeginUndisputed(c: Case, r: Request)
    requires !r.RaiseDispute? && !r.ResolveDispute?
    ensures Begin(c, r).Some? ==> !Begin(c, r).value.DisputeFunds? && !Begin(c, r).value.SettleDispute?
  {
  }

  lemma UndisputedPreserved(w: World, l: Label, v: World)
    requires Inv(w) && UndisputedInv(w) && FromTo(w, l, v) && IsUndisputed(l)
    ensures UndisputedInv(v)
  {
    hide Advance, Begin, CaseInv, PcInv, UndisputedCase, CountersInv;
    forall t | 0 <= t < |v.cases| ensures UndisputedCase(v.cases[t]) {
      RowsAfter(w, l, v, t);
      if t >= |w.cases| {
        FreshIsUndisputed(l.uuid, l.poster, l.split.budget, l.mode, l.tier);
      } else if Moved(w, l).Some? && Moved(w, l).value.0 == t {
        MovedInv(w, l);
        UndisputedStep(l.h, w.cases[t], Moved(w, l).value.1, InputOf(w, l));
      }
    }
    forall h | h in v.handlers ensures UndisputedHandler(v.handlers[h]) {
      if l.Receive? && h == l.h {
        BeginUndisputed(w.cases[l.t], l.request);
      } else if l.Run? && h == l.h {
        MovedInv(w, l);
        UndisputedStep(l.h, w.cases[Moved(w, l).value.0], Moved(w, l).value.1, InputOf(w, l));
      }
    }
  }

  lemma FreshIsUndisputed(uuid: string, poster: UserId, budget: int, mode: PaymentMode, tier: Tier)
    ensures UndisputedCase(NewCase(uuid, poster, budget, mode, tier))
  {
  }

  lemma {:induction false} UndisputedRunInv(ws: seq<World>, ls: seq<Label>, n: nat)
    requires IsUndisputedRun(ws, ls) && n < |ws|
    ensures UndisputedInv(ws[n])
  {
    hide Inv, FromTo, UndisputedCase, UndisputedHandler;
    if n == 0 {
    } else {
      UndisputedRunInv(ws, ls, n - 1);
      RunInv(ws, ls, n - 1);
      assert FromTo(ws[n - 1], ls[n - 1], ws[n]);
      UndisputedPreserved(ws[n - 1], ls[n - 1], ws[n]);
    }
  }

  /** In every run without disputes, whatever an admin does and however handlers interleave:
      an escrow is REFUNDED exactly when its refund is COMPLETED. */
  lemma RefundedExactly(ws: seq<World>, ls: seq<Label>, n: nat, t: TaskId)
    requires IsUndisputedRun(ws, ls) && n < |ws| && t < |ws[n].cases|
    ensures var c := ws[n].cases[t];
            EscrowIs(c, Refunded) <==> c.refund.Some? && c.refund.value.status == RefundDone
  {
    hide FromTo;
    UndisputedRunInv(ws, ls, n);
  }

  /** In those runs, before a refund row exists, an escrow carries a doer exactly when it is
      RELEASED. */
  lemma CarriesDoerExactly(ws: seq<World>, ls: seq<Label>, n: nat, t: TaskId)
    requires IsUndisputedRun(ws, ls) && n < |ws| && t < |ws[n].cases|
    requires ws[n].cases[t].escrow.Some? && ws[n].cases[t].refund.None?
    ensures ws[n].cases[t].escrow.value.doerId.Some? <==> ws[n].cases[t].escrow.value.status == Released
  {
    hide FromTo, FundingInv, PaymentInv, HeldInv, RefundInv, AssignmentInv;
    UndisputedRunInv(ws, ls, n);
    CaseInvAt(ws, ls, n, t);
  }

  // --- A refund claim whose count is not inspected ---

  /** Once the money of a task can never be held again, no release of it matches any more. */
  lemma {:induction false} NoLaterRelease(ws: seq<World>, ls: seq<Label>, i: nat, j: nat, t: TaskId)
    requires IsRun(ws, ls) && i <= j <= |ls| && t < |ws[i].cases| && HeldIsOver(ws[i].cases[t])
    ensures Count(ws, ls, j, Steps(t, RELEASES)) == Count(ws, ls, i, Steps(t, RELEASES))
    decreases j - i
  {
    hide FromTo, Later;
    if i == j {
    } else {
      NoLaterRelease(ws, ls, i, j - 1, t);
      OverStaysOver(ws, ls, i, j - 1, t);
      assert !IsHeld(ws[j - 1].cases[t]);
      assert !Steps(t, RELEASES)(ws[j - 1], ls[j - 1]);
    }
  }

  lemma OverStaysOver(ws: seq<World>, ls: seq<Label>, i: nat, j: nat, t: TaskId)
    requires IsRun(ws, ls) && i <= j < |ws| && t < |ws[i].cases| && HeldIsOver(ws[i].cases[t])
    ensures t < |ws[j].cases| && HeldIsOver(ws[j].cases[t])
  {
    hide FromTo;
    WrittenOnce(ws, ls, i, j, t);
  }

  /** The claim that precedes a refund row leaves the money where it can never be held. */
  lemma ClaimEndsHeld(ws: seq<World>, ls: seq<Label>, i: nat, t: TaskId)
    requires IsRun(ws, ls) && i < |ls| && Moved(ws[i], ls[i]).Some? && Moved(ws[i], ls[i]).value.0 == t
    requires Moved(ws[i], ls[i]).value.1.ClaimFunds?
    ensures t < |ws[i].cases| <= |ws[i + 1].cases| && HeldIsOver(ws[i + 1].cases[t])
  {
    hide CaseInv, Guarantee;
    assert FromTo(ws[i], ls[i], ws[i + 1]);
    RunInv(ws, ls, i);
    MovedInv(ws[i], ls[i]);
    TableGrows(ws[i], ls[i], ws[i + 1]);
    RowsAfter(ws[i], ls[i], ws[i + 1], t);
    ClaimEscrowKeeps(ls[i].h, ws[i].cases[t]);
  }

  /** In every run, disputes and admin refunds included: the escrow whose refund is being
      claimed is released to the doer, sooner or later, exactly when it already carries a
      doer at the moment of the claim. The claim does not look at that column; and when the
      escrow is RELEASED it matches no row, and the refund row is created all the same. */
  lemma ClaimDecides(ws: seq<World>, ls: seq<Label>, i: nat, j: nat, t: TaskId)
    requires IsRun(ws, ls) && i < j <= |ls|
    requires Moved(ws[i], ls[i]).Some? && Moved(ws[i], ls[i]).value.0 == t && Moved(ws[i], ls[i]).value.1.ClaimFunds?
    ensures t < |ws[i].cases| && t < |ws[j].cases|
    ensures var e := ws[i].cases[t].escrow;
            Count(ws, ls, j, Steps(t, RELEASES)) == if e.Some? && e.value.doerId.Some? then 1 else 0
    ensures ws[j].cases[t].payout.Some? ==>
              ws[i].cases[t].escrow.Some? && ws[i].cases[t].escrow.value.doerId.Some?
  {
    hide FromTo, Ticks, Advance, FundingInv, PaymentInv, RefundInv, AssignmentInv, HandlersInv, CountersInv, HeldIsOver;
    ClaimEndsHeld(ws, ls, i, t);
    NoLaterRelease(ws, ls, i + 1, j, t);
    ReleasesTick();
    TicksCount(ws, ls, i, t, (a: Trail) => a.releases, RELEASES);
    CaseInvAt(ws, ls, i, t);
    OverStaysOver(ws, ls, i + 1, j, t);
    PaysOutOnce(ws, ls, j, t);
  }

  // --- Money that moves twice ---

  /** The step claims the escrow of `t` for a refund. */
  predicate IsClaim(w: World, l: Label, t: TaskId) {
    Moved(w, l).Some? && Moved(w, l).value.0 == t && Moved(w, l).value.1.ClaimFunds?
  }

  predicate CarriesDoer(w: World, t: TaskId) {
    t < |w.cases| && w.cases[t].escrow.Some? && w.cases[t].escrow.value.doerId.Some?
  }

  ghost predicate ClaimedBefore(ws: seq<World>, ls: seq<Label>, n: nat, t: TaskId)
    requires IsRun(ws, ls) && n <= |ls|
  {
    exists j :: 0 <= j < n && IsClaim(ws[j], ls[j], t)
  }

  /** Some claim before `n` found an escrow that carries a doer. */
  ghost predicate ClaimFoundDoer(ws: seq<World>, ls: seq<Label>, n: nat, t: TaskId)
    requires IsRun(ws, ls) && n <= |ls|
  {
    exists j :: 0 <= j < n && IsClaim(ws[j], ls[j], t) && CarriesDoer(ws[j], t)
  }

  predicate Creates(w: World, h: HandlerId, t: TaskId) {
    h in w.handlers && w.handlers[h].At? && w.handlers[h].t == t && w.handlers[h].pc.CreateRefund?
  }

  lemma CreateComes(w: World, l: Label, v: World, h: HandlerId, t: TaskId)
    requires FromTo(w, l, v) && Creates(v, h, t)
    ensures Creates(w, h, t) || IsClaim(w, l, t)
  {
    hide Advance, Begin;
    if l.Run? && h == l.h {
      OnlyClaimsCreate(h, w.cases[w.handlers[h].t], w.handlers[h].pc, InputOf(w, l));
    } else if l.Receive? && h == l.h {
      NoneBeginsToCreate(w.cases[l.t], l.request);
    }
  }

  lemma OnlyClaimsCreate(h: HandlerId, c: Case, pc: Pc, i: Input)
    ensures var next := Advance(h, c, pc, i).next;
            next.Some? && next.value.CreateRefund? ==> pc.ClaimFunds?
  {
  }

  lemma NoneBeginsToCreate(c: Case, r: Request)
    ensures Begin(c, r).Some? ==> !Begin(c, r).value.CreateRefund?
  {
  }

  lemma {:induction false} CreateFollowsClaim(ws: seq<World>, ls: seq<Label>, n: nat, h: HandlerId, t: TaskId)
    requires IsRun(ws, ls) && n <= |ls| && Creates(ws[n], h, t)
    ensures ClaimedBefore(ws, ls, n, t)
  {
    hide FromTo, Creates, IsClaim;
    NothingCreates(h, t);
    if n == 0 {
    } else {
      assert FromTo(ws[n - 1], ls[n - 1], ws[n]);
      CreateComes(ws[n - 1], ls[n - 1], ws[n], h, t);
      if Creates(ws[n - 1], h, t) {
        CreateFollowsClaim(ws, ls, n - 1, h, t);
      }
    }
  }

  lemma NothingCreates(h: HandlerId, t: TaskId)
    ensures !Creates(EMPTY, h, t)
  {
  }

  lemma RefundComes(h: HandlerId, c: Case, pc: Pc, i: Input)
    requires c.refund.None? && Advance(h, c, pc, i).rows.refund.Some?
    ensures pc.CreateRefund?
  {
  }

  /** In every run a refund row means that the escrow of the task was claimed before. */
  lemma {:induction false} RefundFollowsClaim(ws: seq<World>, ls: seq<Label>, n: nat, t: TaskId)
    requires IsRun(ws, ls) && n <= |ls| && t < |ws[n].cases| && ws[n].cases[t].refund.Some?
    ensures ClaimedBefore(ws, ls, n, t)
  {
    hide FromTo, Advance, IsClaim;
    if n == 0 {
    } else {
      var w, l := ws[n - 1], ls[n - 1];
      assert FromTo(w, l, ws[n]);
      RowsAfter(w, l, ws[n], t);
      if t < |w.cases| && w.cases[t].refund.Some? {
        RefundFollowsClaim(ws, ls, n - 1, t);
      } else {
        RefundComes(l.h, w.cases[t], Moved(w, l).value.1, InputOf(w, l));
        CreateFollowsClaim(ws, ls, n - 1, l.h, t);
      }
    }
  }

  /** In every run, disputes and admin refunds included: a task with a refund row has also
      been released to its doer exactly when a claim of its escrow found a doer in it. So
      no payout stands beside a refund unless such a claim went through unheeded. */
  lemma MovedTwiceExactly(ws: seq<World>, ls: seq<Label>, n: nat, t: TaskId)
    requires IsRun(ws, ls) && n <= |ls| && t < |ws[n].cases| && ws[n].cases[t].refund.Some?
    ensures Count(ws, ls, n, Steps(t, RELEASES)) == 1 <==> ClaimFoundDoer(ws, ls, n, t)
    ensures ws[n].cases[t].payout.Some? ==> ClaimFoundDoer(ws, ls, n, t)
  {
    hide FromTo;
    RefundFollowsClaim(ws, ls, n, t);
    forall j | 0 <= j < n && IsClaim(ws[j], ls[j], t)
      ensures Count(ws, ls, n, Steps(t, RELEASES)) == (if CarriesDoer(ws[j], t) then 1 else 0)
      ensures ws[n].cases[t].payout.Some? ==> CarriesDoer(ws[j], t)
    {
      ClaimDecides(ws, ls, j, n, t);
    }
  }
}
