/** Handlers that run alone, from their first statement to their last.

    A solo run is a run of the interleaved system, so everything proved there holds here;
    and without interleaving more holds, disputes and admin refunds included. */
module Serial {
  import opened Wrappers
  import opened Rows
  import opened Handlers
  import opened Invariants
  import opened World

  // --- Solo runs ---

  /** A bound on the statements that may still follow a program point. */
  function Rank(pc: Pc): nat {
    match pc
    case CancelFunds(_) => 11
    case ReadCancelled => 10
    case FundEscrow(_, _) => 10
    case StartRefund(_) => 9
    case LookupRefund(_, _) => 8
    case ClaimFunds(_, _) => 7
    case CreateRefund(_, _) => 6
    case RereadRefund => 5
    case ReadRefund => 4
    case ClaimExecution(_) => 3
    case CallRefund(_) => 2
    case CheckHeld(_, _) => 8
    case ReleaseFunds(_, _) => 7
    case ReadReleased(_) => 6
    case LookupPayout(_, _) => 5
    case CreatePayout(_, _) => 4
    case Dispatch(_, _) => 3
    case SettlePayout(_, _) => 2
    case CheckProfile(_, _, _) => 4
    case CheckFunds(_) => 3
    case Assign(_) => 2
    case FundFee(_, _) => 2
    case ReadFee => 2
    case _ => 1
  }

  predicate OnRefundPath(pc: Pc) {
    pc.CancelFunds? || pc.ReadCancelled? || pc.StartRefund? || pc.LookupRefund? || pc.ClaimFunds? || pc.CreateRefund?
    || pc.RereadRefund? || pc.ReadRefund? || pc.QueueRefund? || pc.ClaimExecution? || pc.CallRefund? || pc.RecordRefund?
  }

  lemma RefundRankDecreases(h: HandlerId, c: Case, pc: Pc, i: Input)
    requires OnRefundPath(pc)
    ensures Advance(h, c, pc, i).next.Some? ==> Rank(Advance(h, c, pc, i).next.value) < Rank(pc)
  {
    hide CancelTask, ClaimEscrow, InsertRefund, ClaimRefund, FinishRefund, FailRefund, Charge;
  }

  /** Every handler ends: each statement leads to a point of lower rank. */
  lemma RankDecreases(h: HandlerId, c: Case, pc: Pc, i: Input)
    ensures Advance(h, c, pc, i).next.Some? ==> Rank(Advance(h, c, pc, i).next.value) < Rank(pc)
  {
    if OnRefundPath(pc) {
      RefundRankDecreases(h, c, pc, i);
      hide Advance;
    } else {
      hide ReleaseHeld, InsertPayout, AssignDoer, IsHeld;
      hide ApplyEscrowPayment, ApplyFeePayment, Rows.RaiseDispute, Rows.ResolveDispute;
    }
  }

  /** The rows left by a handler that runs from `pc` to its end without interference. */
  function Solo(h: HandlerId, c: Case, pc: Pc, i: Input): Case
    decreases Rank(pc)
  {
    var o := Advance(h, c, pc, i);
    RankDecreases(h, c, pc, i);
    if o.next.None? then o.rows else Solo(h, o.rows, o.next.value, i)
  }

  /** A solo run, one statement at a time. */
  lemma Unfold(h: HandlerId, c: Case, pc: Pc, i: Input)
    ensures var o := Advance(h, c, pc, i);
            Solo(h, c, pc, i) == if o.next.None? then o.rows else Solo(h, o.rows, o.next.value, i)
  {
    hide Advance;
  }

  function SoloProfiles(h: HandlerId, profiles: map<UserId, Profile>, c: Case, pc: Pc, i: Input): map<UserId, Profile>
    decreases Rank(pc)
  {
    var o := Advance(h, c, pc, i);
    RankDecreases(h, c, pc, i);
    var credited := Credit(profiles, c, pc);
    if o.next.None? then credited else SoloProfiles(h, credited, o.rows, o.next.value, i)
  }

  /** A whole request served alone. */
  function Serve(h: HandlerId, c: Case, r: Request, i: Input): Case {
    if Begin(c, r).Some? then Solo(h, c, Begin(c, r).value, i) else c
  }

  /** Only the eligibility check of an accept reads a profile. */
  lemma ProfileOnlyAtCheck(h: HandlerId, c: Case, pc: Pc, i: Input, j: Input)
    requires !pc.CheckProfile? && i == j.(profile := i.profile)
    ensures Advance(h, c, pc, i) == Advance(h, c, pc, j)
  {
  }

  lemma CheckOnlyFirst(h: HandlerId, c: Case, pc: Pc, i: Input)
    ensures Advance(h, c, pc, i).next.Some? ==> !Advance(h, c, pc, i).next.value.CheckProfile?
  {
  }

  /** What is left of a handler when its program points on one task are done. */
  function Rest(h: HandlerId, rest: seq<Job>, more: bool): map<HandlerId, Handler> {
    if rest == [] && !more then map[] else map[h := Between(rest, more)]
  }

  /** A solo run from a reachable world leads to a reachable world. */
  lemma {:induction false} SoloReaches(w: World, t: TaskId, h: HandlerId, pc: Pc, rest: seq<Job>, more: bool,
                                        i: Input, v: World)
    requires Reaches(w) && t < |w.cases| && w.handlers == map[h := At(t, pc, rest, more)]
    requires i.now == w.now && (pc.CheckProfile? ==> i.profile == ProfileFor(w, pc))
    requires v == World(w.cases[t := Solo(h, w.cases[t], pc, i)], Rest(h, rest, more),
                        SoloProfiles(h, w.profiles, w.cases[t], pc, i), w.now)
    ensures Reaches(v)
    decreases Rank(pc)
  {
    hide Advance, Reaches, Rank;
    var l := Run(h, i.configured, i.success);
    var u := Apply(w, l);
    Extend(w, l);
    var o := Advance(h, w.cases[t], pc, i);
    if !pc.CheckProfile? {
      ProfileOnlyAtCheck(h, w.cases[t], pc, StepInput(w, l), i);
    }
    assert o == StepOf(w, h, i.configured, i.success);
    RankDecreases(h, w.cases[t], pc, i);
    if o.next.None? {
      assert u.handlers == Rest(h, rest, more);
      assert u == v;
    } else {
      assert u.handlers == map[h := At(t, o.next.value, rest, more)];
      CheckOnlyFirst(h, w.cases[t], pc, i);
      assert u.cases[t := Solo(h, o.rows, o.next.value, i)] == w.cases[t := Solo(h, o.rows, o.next.value, i)];
      SoloReaches(u, t, h, o.next.value, rest, more, i, v);
    }
  }

  ghost function StepInput(w: World, l: Label): Input
    requires l.Run? && l.h in w.handlers && w.handlers[l.h].At?
  {
    Input(w.now, l.configured, l.success, ProfileFor(w, w.handlers[l.h].pc))
  }

  /** A solo run keeps the invariant of its rows. */
  lemma {:induction false} SoloKeeps(h: HandlerId, c: Case, pc: Pc, i: Input)
    requires CaseInv(c) && PcInv(h, c, pc, i.now)
    ensures CaseInv(Solo(h, c, pc, i))
    decreases Rank(pc)
  {
    hide CaseInv, PcInv, Guarantee, Advance, Rank;
    StepSound(h, c, pc, i);
    var o := Advance(h, c, pc, i);
    RankDecreases(h, c, pc, i);
    if o.next.Some? {
      SoloKeeps(h, o.rows, o.next.value, i);
    }
  }

  // --- What only handlers that run alone keep ---

  /** A released escrow is never refunded through the provider, a disputed task is never
      cancelled, and a refund that still awaits the provider is not recorded as done. */
  ghost predicate AtomicCase(c: Case) {
    && (c.trail.releases == 1 ==> c.refund.None? && !AwaitsRefund(c))
    && (c.dispute.Some? ==> c.task.status == TaskDisputed || c.task.status == Completed)
    && (AwaitsRefund(c) && c.refund.Some? ==> c.refund.value.status != RefundDone)
  }

  /** What a handler that runs alone still sees unchanged at each point. */
  ghost predicate AtomicPc(h: HandlerId, c: Case, pc: Pc) {
    match pc
    case FundEscrow(seen, _) => c.escrow == Some(seen) && seen.status == Pending
    case MarkStarted => c.task.status == Assigned
    case MarkCompleted(_) => c.task.status == Assigned || c.task.status == InProgress
    case StartRefund(_) => c.escrow.Some? && c.escrow.value.status != EscrowDisputed
    case LookupRefund(_, seen) => c.escrow == Some(seen) && seen.status != EscrowDisputed
    case ClaimFunds(_, seen) =>
      c.escrow == Some(seen) && c.refund.None? && (seen.status == Held || seen.status == RefundPending)
    case CreateRefund(_, _) => c.refund.None? && AwaitsRefund(c)
    case RereadRefund => false
    case DisputeFunds(_, _) => HasDoer(c.task.status) && c.task.status != TaskDisputed
    case _ => true
  }

  ghost predicate AtomicOk(h: HandlerId, c: Case, o: Outcome) {
    && AtomicCase(o.rows) && (o.next.Some? ==> AtomicPc(h, o.rows, o.next.value))
    && (c.task.status == Cancelled ==> o.rows.task.status == Cancelled)
  }

  lemma AtomicStep(h: HandlerId, c: Case, pc: Pc, i: Input)
    requires CaseInv(c) && PcInv(h, c, pc, i.now) && AtomicCase(c) && AtomicPc(h, c, pc)
    ensures AtomicOk(h, c, Advance(h, c, pc, i))
  {
    hide CaseInv, PcInv, AtomicCase, AtomicPc, AtomicOk;
    if IsClaimPoint(pc) || IsProviderPoint(pc) {
      AtomicMoneyStep(h, c, pc, i);
    } else if pc.ReleaseFunds? || pc.CancelFunds? || pc.DisputeFunds? || pc.SettleDispute? {
      AtomicLeaveStep(h, c, pc, i);
    } else {
      AtomicTaskStep(h, c, pc, i);
    }
  }

  lemma AtomicMoneyStep(h: HandlerId, c: Case, pc: Pc, i: Input)
    requires CaseInv(c) && PcInv(h, c, pc, i.now) && AtomicCase(c) && AtomicPc(h, c, pc)
    requires IsClaimPoint(pc) || IsProviderPoint(pc)
    ensures AtomicOk(h, c, Advance(h, c, pc, i))
  {
    hide FundingInv, PaymentInv, AssignmentInv;
  }

  lemma AtomicLeaveStep(h: HandlerId, c: Case, pc: Pc, i: Input)
    requires CaseInv(c) && PcInv(h, c, pc, i.now) && AtomicCase(c) && AtomicPc(h, c, pc)
    requires pc.ReleaseFunds? || pc.CancelFunds? || pc.DisputeFunds? || pc.SettleDispute?
    ensures AtomicOk(h, c, Advance(h, c, pc, i))
  {
    hide PaymentInv, AssignmentInv;
  }

  /** The statements that change no row that `AtomicCase` speaks of. */
  predicate IsAside(pc: Pc) {
    OnlyReads(pc) || OnlyReadsMoney(pc) || IsPayoutPoint(pc) || IsPaidPoint(pc)
  }

  lemma AtomicAsideStep(h: HandlerId, c: Case, pc: Pc, i: Input)
    requires AtomicCase(c) && AtomicPc(h, c, pc) && IsAside(pc)
    ensures AtomicOk(h, c, Advance(h, c, pc, i))
  {
  }

  lemma AtomicTaskStep(h: HandlerId, c: Case, pc: Pc, i: Input)
    requires CaseInv(c) && PcInv(h, c, pc, i.now) && AtomicCase(c) && AtomicPc(h, c, pc)
    requires !IsClaimPoint(pc) && !IsProviderPoint(pc)
          && !pc.ReleaseFunds? && !pc.CancelFunds? && !pc.DisputeFunds? && !pc.SettleDispute?
    ensures AtomicOk(h, c, Advance(h, c, pc, i))
  {
    if IsAside(pc) {
      AtomicAsideStep(h, c, pc, i);
      hide Advance, AtomicOk;
    } else {
      hide PaymentInv, AssignmentInv, PcInv;
    }
  }

  lemma {:induction false} SoloAtomic(h: HandlerId, c: Case, pc: Pc, i: Input)
    requires CaseInv(c) && PcInv(h, c, pc, i.now) && AtomicCase(c) && AtomicPc(h, c, pc)
    ensures AtomicCase(Solo(h, c, pc, i))
    ensures c.task.status == Cancelled ==> Solo(h, c, pc, i).task.status == Cancelled
    decreases Rank(pc)
  {
    hide CaseInv, PcInv, Guarantee, Advance, AtomicCase, AtomicPc, Rank;
    StepSound(h, c, pc, i);
    AtomicStep(h, c, pc, i);
    RankDecreases(h, c, pc, i);
    var o := Advance(h, c, pc, i);
    if o.next.Some? {
      SoloAtomic(h, o.rows, o.next.value, i);
    }
  }

  lemma BeginAtomic(h: HandlerId, c: Case, r: Request, i: Input)
    requires CaseInv(c) && AtomicCase(c) && Begin(c, r).Some?
    ensures AtomicPc(h, c, Begin(c, r).value)
  {
    hide CaseInv;
  }

  /** No request served alone, disputes and admin refunds included, gives one escrow both a
      payout and a refund, or brings a cancelled task back. */
  lemma ServeAtomic(h: HandlerId, c: Case, r: Request, i: Input)
    requires CaseInv(c) && AtomicCase(c)
    ensures var d := Serve(h, c, r, i);
            && CaseInv(d) && AtomicCase(d) && !(d.payout.Some? && d.refund.Some?)
            && (c.task.status == Cancelled ==> d.task.status == Cancelled)
  {
    hide FundingInv, PaymentInv, HeldInv, RefundInv, AssignmentInv, PcInv, Begin, Solo, AtomicPc;
    if Begin(c, r).Some? {
      BeginSound(h, c, r, i.now);
      BeginAtomic(h, c, r, i);
      SoloKeeps(h, c, Begin(c, r).value, i);
      SoloAtomic(h, c, Begin(c, r).value, i);
    }
  }

  // --- Serving from a quiet world ---

  function ServeProfiles(h: HandlerId, profiles: map<UserId, Profile>, c: Case, r: Request, i: Input)
    : map<UserId, Profile>
  {
    if Begin(c, r).Some? then SoloProfiles(h, profiles, c, Begin(c, r).value, i) else profiles
  }

  ghost predicate AllAtomic(cs: seq<Case>) {
    forall t :: 0 <= t < |cs| ==> AtomicCase(cs[t])
  }

  /** Profiles change only along a release. */
  lemma {:induction false} NoCredit(h: HandlerId, profiles: map<UserId, Profile>, c: Case, pc: Pc, i: Input)
    requires !pc.CheckHeld? && !pc.ReleaseFunds?
    ensures SoloProfiles(h, profiles, c, pc, i) == profiles
    decreases Rank(pc)
  {
    hide Advance, Rank;
    RankDecreases(h, c, pc, i);
    ReleaseComesFirst(h, c, pc, i);
    var o := Advance(h, c, pc, i);
    if o.next.Some? {
      NoCredit(h, profiles, o.rows, o.next.value, i);
    }
  }

  lemma ReleaseComesFirst(h: HandlerId, c: Case, pc: Pc, i: Input)
    ensures Advance(h, c, pc, i).next.Some? ==>
              !Advance(h, c, pc, i).next.value.CheckHeld?
              && (Advance(h, c, pc, i).next.value.ReleaseFunds? ==> pc.CheckHeld?)
  {
  }

  /** Only a confirmation touches a profile. */
  lemma ServeKeepsProfiles(h: HandlerId, profiles: map<UserId, Profile>, c: Case, r: Request, i: Input)
    requires !r.Confirm?
    ensures ServeProfiles(h, profiles, c, r, i) == profiles
  {
    hide SoloProfiles;
    if Begin(c, r).Some? {
      NoCredit(h, profiles, c, Begin(c, r).value, i);
    }
  }

  /** Serving a request alone from a reachable, quiet world gives such a world again. */
  lemma ServeReaches(w: World, t: TaskId, r: Request, i: Input, v: World)
    requires Reaches(w) && w.handlers == map[] && AllAtomic(w.cases) && t < |w.cases|
    requires i.now == w.now && (r.Accept? ==> i.profile == Lookup(w.profiles, r.doer))
    requires v == World(w.cases[t := Serve(0, w.cases[t], r, i)], map[],
                        ServeProfiles(0, w.profiles, w.cases[t], r, i), w.now)
    ensures Reaches(v) && AllAtomic(v.cases)
  {
    hide Reaches, AtomicCase, CaseInv, Begin;
    CasesOf(w);
    ServeAtomic(0, w.cases[t], r, i);
    var l := Receive(0, t, r);
    Extend(w, l);
    var u := Apply(w, l);
    if Begin(w.cases[t], r).Some? {
      var pc := Begin(w.cases[t], r).value;
      assert u.handlers == map[0 := At(t, pc, [], false)];
      assert pc.CheckProfile? ==> r.Accept? && pc.doer == r.doer by { AcceptChecksProfile(w.cases[t], r); }
      SoloReaches(u, t, 0, pc, [], false, i, v);
    } else {
      assert u.handlers == map[] && v.cases == u.cases;
    }
  }

  lemma AcceptChecksProfile(c: Case, r: Request)
    ensures Begin(c, r).Some? && Begin(c, r).value.CheckProfile? ==> r.Accept? && Begin(c, r).value.doer == r.doer
  {
  }

  lemma CasesOf(w: World)
    requires Reaches(w)
    ensures forall t :: 0 <= t < |w.cases| ==> CaseInv(w.cases[t])
  {
    hide Reaches, CaseInv, HandlersInv, CountersInv;
    ReachesInv(w);
  }
}
