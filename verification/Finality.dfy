/** What is final: the states of a task that no later step of the system can leave.

    Each result is an equivalence about a reachable world: a fact stays true in every world
    that can follow it, whatever handlers, requests and crashes come, exactly when a
    condition on its rows and on the handlers that stand on them holds now. */
module Finality {
  import opened Wrappers
  import opened Rows
  import opened Handlers
  import opened Invariants
  import opened World
  import opened Safety

  // --- What can follow a world ---

  ghost predicate IsPath(ws: seq<World>, ls: seq<Label>) {
    |ws| == |ls| + 1 && forall i :: 0 <= i < |ls| ==> FromTo(ws[i], ls[i], ws[i + 1])
  }

  ghost predicate Joins(ws: seq<World>, w: World, v: World) {
    ws != [] && ws[0] == w && ws[|ws| - 1] == v
  }

  /** Some steps lead from `w` to `v`. */
  ghost predicate Leads(w: World, v: World) {
    exists ws, ls :: IsPath(ws, ls) && Joins(ws, w, v)
  }

  type Fact = Case -> bool

  predicate Holds(w: World, t: TaskId, fact: Fact) {
    t < |w.cases| && fact(w.cases[t])
  }

  /** The rows of `t` satisfy `fact` in every world that can follow `w`. */
  ghost predicate Forever(w: World, t: TaskId, fact: Fact) {
    forall v :: Leads(w, v) ==> Holds(v, t, fact)
  }

  lemma LeadsNowhere(w: World)
    ensures Leads(w, w)
  {
    var ws, ls: seq<Label> := [w], [];
    assert IsPath(ws, ls) && Joins(ws, w, w);
  }

  lemma LeadsOn(w: World, v: World, l: Label)
    requires Leads(w, v) && Enabled(v, l)
    ensures Leads(w, Apply(v, l))
  {
    hide Enabled, Apply;
    var ws, ls :| IsPath(ws, ls) && Joins(ws, w, v);
    var vs, ms := ws + [Apply(v, l)], ls + [l];
    forall i | 0 <= i < |ms| ensures FromTo(vs[i], ms[i], vs[i + 1]) {
      if i < |ls| {
        assert FromTo(ws[i], ls[i], ws[i + 1]);
      }
    }
    assert IsPath(vs, ms) && Joins(vs, w, Apply(v, l));
  }

  lemma {:induction false} PathReaches(ws: seq<World>, ls: seq<Label>, i: nat)
    requires IsPath(ws, ls) && Reaches(ws[0]) && i < |ws|
    ensures Reaches(ws[i])
  {
    hide Reaches;
    if i == 0 {
    } else {
      PathReaches(ws, ls, i - 1);
      assert FromTo(ws[i - 1], ls[i - 1], ws[i]);
      Extend(ws[i - 1], ls[i - 1]);
    }
  }

  lemma LeadsReaches(w: World, v: World)
    requires Reaches(w) && Leads(w, v)
    ensures Reaches(v)
  {
    hide Reaches, IsPath;
    var ws, ls :| IsPath(ws, ls) && Joins(ws, w, v);
    PathReaches(ws, ls, |ws| - 1);
  }

  // --- Staying ---

  type Danger = Pc -> bool

  predicate Stands(w: World, h: HandlerId, t: TaskId, pc: Pc) {
    h in w.handlers && w.handlers[h].At? && w.handlers[h].t == t && w.handlers[h].pc == pc
  }

  /** No handler of `t` stands at a dangerous program point. */
  predicate Clear(w: World, t: TaskId, danger: Danger) {
    forall h :: h in w.handlers && w.handlers[h].At? && w.handlers[h].t == t ==> !danger(w.handlers[h].pc)
  }

  /** The program points at which a handler can start other than by a request. */
  predicate IsEntry(pc: Pc) {
    pc.InsertMoney? || pc.FundEscrow? || pc.FundFee? || pc.StartRefund? || pc.ReleaseFunds?
  }

  /** Away from the dangerous points a statement keeps the fact and leads to no such point,
      and while the fact holds no request starts at one. */
  ghost predicate Keeping(fact: Fact, danger: Danger) {
    && (forall h, c, pc, i: Input :: CaseInv(c) && PcInv(h, c, pc, i.now) && fact(c) && !danger(pc) ==>
          StepKeeps(fact, danger, Advance(h, c, pc, i)))
    && (forall c, r :: CaseInv(c) && fact(c) && Begin(c, r).Some? ==> !danger(Begin(c, r).value))
    && (forall pc :: IsEntry(pc) ==> !danger(pc))
  }

  predicate StepKeeps(fact: Fact, danger: Danger, o: Outcome) {
    fact(o.rows) && (o.next.Some? ==> !danger(o.next.value))
  }

  lemma StepStays(w: World, l: Label, v: World, t: TaskId, fact: Fact, danger: Danger)
    requires Inv(w) && FromTo(w, l, v) && Keeping(fact, danger)
    requires Holds(w, t, fact) && Clear(w, t, danger)
    ensures Holds(v, t, fact) && Clear(v, t, danger)
  {
    hide Advance, Begin, CaseInv, PcInv, CountersInv;
    TableGrows(w, l, v);
    RowsAfter(w, l, v, t);
    if Moved(w, l).Some? && Moved(w, l).value.0 == t {
      MovedInv(w, l);
      assert StepKeeps(fact, danger, Advance(l.h, w.cases[t], Moved(w, l).value.1, InputOf(w, l)));
    }
    forall h | h in v.handlers && v.handlers[h].At? && v.handlers[h].t == t ensures !danger(v.handlers[h].pc) {
      if h in w.handlers && v.handlers[h] == w.handlers[h] {
      } else {
        StartsClear(w, l, v, h, t, fact, danger);
      }
    }
  }

  lemma StartsClear(w: World, l: Label, v: World, h: HandlerId, t: TaskId, fact: Fact, danger: Danger)
    requires Inv(w) && FromTo(w, l, v) && Keeping(fact, danger)
    requires Holds(w, t, fact) && Clear(w, t, danger)
    requires h in v.handlers && v.handlers[h].At? && v.handlers[h].t == t
    requires h in w.handlers ==> v.handlers[h] != w.handlers[h]
    ensures !danger(v.handlers[h].pc)
  {
    hide Advance, Begin, CaseInv, PcInv, CountersInv;
    if l.Run? {
      MovedInv(w, l);
      assert StepKeeps(fact, danger, Advance(l.h, w.cases[t], Moved(w, l).value.1, InputOf(w, l)));
    } else if l.Receive? {
      assert CaseInv(w.cases[t]);
    } else {
      assert IsEntry(v.handlers[h].pc);
    }
  }

  lemma {:induction false} PathStays(ws: seq<World>, ls: seq<Label>, i: nat, t: TaskId, fact: Fact, danger: Danger)
    requires IsPath(ws, ls) && Reaches(ws[0]) && i < |ws| && Keeping(fact, danger)
    requires Holds(ws[0], t, fact) && Clear(ws[0], t, danger)
    ensures Holds(ws[i], t, fact) && Clear(ws[i], t, danger)
  {
    hide Reaches, Holds, Clear, Keeping, Inv, FromTo;
    if i == 0 {
    } else {
      PathStays(ws, ls, i - 1, t, fact, danger);
      PathReaches(ws, ls, i - 1);
      ReachesInv(ws[i - 1]);
      StepStays(ws[i - 1], ls[i - 1], ws[i], t, fact, danger);
    }
  }

  /** A kept fact with no handler at a dangerous point lasts forever. */
  lemma Stays(w: World, t: TaskId, fact: Fact, danger: Danger)
    requires Reaches(w) && Keeping(fact, danger) && Holds(w, t, fact) && Clear(w, t, danger)
    ensures Forever(w, t, fact)
  {
    hide Reaches, Keeping, Holds, Clear, IsPath;
    forall v | Leads(w, v) ensures Holds(v, t, fact) {
      var ws, ls :| IsPath(ws, ls) && Joins(ws, w, v);
      PathStays(ws, ls, |ws| - 1, t, fact, danger);
    }
  }

  // --- Leaving ---

  /** A handler takes its next step; the provider is configured and answers `ok`. */
  lemma Move(w: World, v: World, h: HandlerId, t: TaskId, pc: Pc, ok: bool) returns (u: World)
    requires Leads(w, v) && Stands(v, h, t, pc) && t < |v.cases| && !pc.CheckProfile?
    ensures var o := Advance(h, v.cases[t], pc, Input(v.now, true, ok, None));
            && Leads(w, u) && u.now == v.now && |u.cases| == |v.cases| && u.cases[t] == o.rows
            && (o.next.Some? ==> Stands(u, h, t, o.next.value))
  {
    hide Leads, Advance;
    u := Apply(v, Run(h, true, ok));
    LeadsOn(w, v, Run(h, true, ok));
  }

  lemma {:induction false} Fresh(ids: set<HandlerId>) returns (h: HandlerId)
    ensures forall k :: k in ids ==> k < h
    decreases ids
  {
    if ids == {} {
      h := 0;
    } else {
      var k :| k in ids;
      var g := Fresh(ids - {k});
      assert ids == ids - {k} + {k};
      h := if g <= k then k + 1 else g;
    }
  }

  /** A request arrives. */
  lemma Ask(w: World, v: World, t: TaskId, r: Request) returns (h: HandlerId, u: World)
    requires Leads(w, v) && t < |v.cases|
    ensures Leads(w, u) && u.cases == v.cases && u.now == v.now
    ensures Begin(v.cases[t], r).Some? ==> Stands(u, h, t, Begin(v.cases[t], r).value)
  {
    hide Leads, Begin;
    h := Fresh(v.handlers.Keys);
    u := Apply(v, Receive(h, t, r));
    LeadsOn(w, v, Receive(h, t, r));
  }

  lemma Refutes(w: World, v: World, t: TaskId, fact: Fact)
    requires Leads(w, v) && t < |v.cases| && !fact(v.cases[t])
    ensures !Forever(w, t, fact)
  {
    hide Leads;
    assert !Holds(v, t, fact);
  }

  /** What a handler of a reachable world relies on. */
  lemma StandsSound(w: World, h: HandlerId, t: TaskId, pc: Pc)
    requires Reaches(w) && Stands(w, h, t, pc)
    ensures t < |w.cases| && CaseInv(w.cases[t]) && PcInv(h, w.cases[t], pc, w.now)
  {
    hide Reaches, CaseInv, PcInv, CountersInv;
    ReachesInv(w);
  }

  lemma RowsSound(w: World, t: TaskId)
    requires Reaches(w) && t < |w.cases|
    ensures CaseInv(w.cases[t])
  {
    hide Reaches, CaseInv, CountersInv, HandlersInv;
    ReachesInv(w);
  }

  // --- CANCELLED ---

  const IS_CANCELLED: Fact := (c: Case) => c.task.status == Cancelled
  const CANCELLED_UNDISPUTED: Fact := (c: Case) => c.task.status == Cancelled && c.dispute.None?
  /** A write of the task status that no longer looks at it. */
  const REVIVES: Danger := (pc: Pc) => pc.MarkStarted? || pc.MarkCompleted? || pc.DisputeFunds? || pc.SettleDispute?

  lemma CancelledStep(h: HandlerId, c: Case, pc: Pc, i: Input)
    requires CANCELLED_UNDISPUTED(c) && !REVIVES(pc)
    ensures StepKeeps(CANCELLED_UNDISPUTED, REVIVES, Advance(h, c, pc, i))
  {
  }

  lemma CancelledBegin(c: Case, r: Request)
    requires CANCELLED_UNDISPUTED(c) && Begin(c, r).Some?
    ensures !REVIVES(Begin(c, r).value)
  {
  }

  lemma CancelledKept()
    ensures Keeping(CANCELLED_UNDISPUTED, REVIVES)
  {
    hide CaseInv, PcInv, Advance, Begin, StepKeeps;
    forall h, c, pc, i: Input | CaseInv(c) && PcInv(h, c, pc, i.now) && CANCELLED_UNDISPUTED(c) && !REVIVES(pc)
      ensures StepKeeps(CANCELLED_UNDISPUTED, REVIVES, Advance(h, c, pc, i))
    {
      CancelledStep(h, c, pc, i);
    }
    forall c, r | CaseInv(c) && CANCELLED_UNDISPUTED(c) && Begin(c, r).Some? ensures !REVIVES(Begin(c, r).value) {
      CancelledBegin(c, r);
    }
  }

  lemma RevivedLeaves(w: World, h: HandlerId, t: TaskId, pc: Pc)
    requires Reaches(w) && Stands(w, h, t, pc) && t < |w.cases| && IS_CANCELLED(w.cases[t]) && REVIVES(pc)
    requires w.cases[t].dispute.None?
    ensures !Forever(w, t, IS_CANCELLED)
  {
    hide Reaches, Leads, Forever, HeldInv, ReleaseInv, RefundInv;
    StandsSound(w, h, t, pc);
    LeadsNowhere(w);
    var v := Move(w, w, h, t, pc, true);
    Refutes(w, v, t, IS_CANCELLED);
  }

  /** A new resolution of a dispute writes the task, whatever its status. */
  lemma ResolvedLeaves(w: World, t: TaskId) returns (v: World)
    requires Reaches(w) && t < |w.cases| && w.cases[t].dispute.Some?
    ensures Leads(w, v) && t < |v.cases| && v.cases[t] == Rows.ResolveDispute(w.cases[t], w.cases[t].escrow.Some?, true)
  {
    hide Reaches, Leads;
    LeadsNowhere(w);
    var h, u := Ask(w, w, t, ResolveDispute(true));
    v := Move(w, u, h, t, SettleDispute(w.cases[t].escrow.Some?, true), true);
  }

  /** A cancelled task stays cancelled in all that can follow exactly when it has no dispute
      and no handler that checked it earlier still has its status to write. */
  lemma CancelledIsFinalExactly(w: World, t: TaskId)
    requires Reaches(w) && Holds(w, t, IS_CANCELLED)
    ensures Forever(w, t, IS_CANCELLED) <==> w.cases[t].dispute.None? && Clear(w, t, REVIVES)
  {
    hide Reaches, Leads, Keeping;
    if w.cases[t].dispute.Some? {
      var v := ResolvedLeaves(w, t);
      Refutes(w, v, t, IS_CANCELLED);
    } else if !Clear(w, t, REVIVES) {
      var h :| h in w.handlers && w.handlers[h].At? && w.handlers[h].t == t && REVIVES(w.handlers[h].pc);
      RevivedLeaves(w, h, t, w.handlers[h].pc);
    } else {
      CancelledKept();
      Stays(w, t, CANCELLED_UNDISPUTED, REVIVES);
      assert forall v :: Leads(w, v) ==> Holds(v, t, CANCELLED_UNDISPUTED);
    }
  }

  // --- PAID ---

  const IS_PAID: Fact := (c: Case) => c.payout.Some? && c.payout.value.status == PayoutPaid
  const SETTLES: Danger := (pc: Pc) => pc.Dispatch? || pc.SettlePayout?

  lemma PaidStep(h: HandlerId, c: Case, pc: Pc, i: Input)
    requires IS_PAID(c) && !SETTLES(pc)
    ensures StepKeeps(IS_PAID, SETTLES, Advance(h, c, pc, i))
  {
  }

  lemma PaidBegin(c: Case, r: Request)
    requires IS_PAID(c) && Begin(c, r).Some?
    ensures !SETTLES(Begin(c, r).value)
  {
  }

  lemma PaidKept()
    ensures Keeping(IS_PAID, SETTLES)
  {
    hide CaseInv, PcInv, Advance, Begin, StepKeeps;
    forall h, c, pc, i: Input | CaseInv(c) && PcInv(h, c, pc, i.now) && IS_PAID(c) && !SETTLES(pc)
      ensures StepKeeps(IS_PAID, SETTLES, Advance(h, c, pc, i))
    {
      PaidStep(h, c, pc, i);
    }
    forall c, r | CaseInv(c) && IS_PAID(c) && Begin(c, r).Some? ensures !SETTLES(Begin(c, r).value) {
      PaidBegin(c, r);
    }
  }

  lemma SettlerLeaves(w: World, h: HandlerId, t: TaskId, pc: Pc)
    requires Stands(w, h, t, pc) && Holds(w, t, IS_PAID) && SETTLES(pc)
    ensures !Forever(w, t, IS_PAID)
  {
    hide Leads, Forever;
    LeadsNowhere(w);
    var v := Move(w, w, h, t, pc, true);
    if pc.Dispatch? {
      v := Move(w, v, h, t, SettlePayout(pc.doer, pc.amount), true);
    }
    Refutes(w, v, t, IS_PAID);
  }

  /** A payout that was marked PAID stays PAID exactly when its creation is over. */
  lemma PaidIsFinalExactly(w: World, t: TaskId)
    requires Reaches(w) && Holds(w, t, IS_PAID)
    ensures Forever(w, t, IS_PAID) <==> Clear(w, t, SETTLES)
  {
    hide Reaches, Leads, Keeping;
    if Clear(w, t, SETTLES) {
      PaidKept();
      Stays(w, t, IS_PAID, SETTLES);
    } else {
      var h :| h in w.handlers && w.handlers[h].At? && w.handlers[h].t == t && SETTLES(w.handlers[h].pc);
      SettlerLeaves(w, h, t, w.handlers[h].pc);
    }
  }

  // --- A refund in flight ---

  const IS_PROCESSING: Fact := (c: Case) => c.refund.Some? && c.refund.value.status == Processing
  const EXECUTES: Danger := (pc: Pc) => InFlight(pc)

  lemma ProcessingStep(h: HandlerId, c: Case, pc: Pc, i: Input)
    requires IS_PROCESSING(c) && !EXECUTES(pc)
    ensures StepKeeps(IS_PROCESSING, EXECUTES, Advance(h, c, pc, i))
  {
  }

  lemma ProcessingBegin(c: Case, r: Request)
    requires IS_PROCESSING(c) && Begin(c, r).Some?
    ensures !EXECUTES(Begin(c, r).value)
  {
  }

  lemma ProcessingKept()
    ensures Keeping(IS_PROCESSING, EXECUTES)
  {
    hide CaseInv, PcInv, Advance, Begin, StepKeeps;
    forall h, c, pc, i: Input | CaseInv(c) && PcInv(h, c, pc, i.now) && IS_PROCESSING(c) && !EXECUTES(pc)
      ensures StepKeeps(IS_PROCESSING, EXECUTES, Advance(h, c, pc, i))
    {
      ProcessingStep(h, c, pc, i);
    }
    forall c, r | CaseInv(c) && IS_PROCESSING(c) && Begin(c, r).Some? ensures !EXECUTES(Begin(c, r).value) {
      ProcessingBegin(c, r);
    }
  }

  /** The executor of a refund brings it to an end. */
  lemma ExecutorEnds(w: World, v: World, h: HandlerId, t: TaskId, pc: Pc, ok: bool) returns (u: World)
    requires Leads(w, v) && Stands(v, h, t, pc) && t < |v.cases| && v.cases[t].refund.Some?
    requires pc.CallRefund? || pc == RecordRefund(ok)
    ensures Leads(w, u) && t < |u.cases| && u.cases[t].refund.Some?
    ensures u.cases[t].refund.value.status == if ok then RefundDone else RefundFailed
    ensures u.cases[t].task == v.cases[t].task && u.cases[t].dispute == v.cases[t].dispute
    ensures u.cases[t].escrow == if ok && v.cases[t].escrow.Some?
                                 then Some(v.cases[t].escrow.value.(status := Refunded)) else v.cases[t].escrow
  {
    hide Leads;
    if pc.CallRefund? {
      var x := Move(w, v, h, t, pc, ok);
      u := RecordEnds(w, x, h, t, ok);
    } else {
      u := RecordEnds(w, v, h, t, ok);
    }
  }

  lemma RecordEnds(w: World, v: World, h: HandlerId, t: TaskId, ok: bool) returns (u: World)
    requires Leads(w, v) && Stands(v, h, t, RecordRefund(ok)) && t < |v.cases| && v.cases[t].refund.Some?
    ensures Leads(w, u) && t < |u.cases| && u.cases[t].refund.Some?
    ensures u.cases[t].refund.value.status == if ok then RefundDone else RefundFailed
    ensures u.cases[t].task == v.cases[t].task && u.cases[t].dispute == v.cases[t].dispute
    ensures u.cases[t].escrow == if ok && v.cases[t].escrow.Some?
                                 then Some(v.cases[t].escrow.value.(status := Refunded)) else v.cases[t].escrow
  {
    hide Leads;
    u := Move(w, v, h, t, RecordRefund(ok), ok);
  }

  /** A refund in PROCESSING stays there for good exactly when its executor is gone. */
  lemma ProcessingIsFinalExactly(w: World, t: TaskId)
    requires Reaches(w) && Holds(w, t, IS_PROCESSING)
    ensures Forever(w, t, IS_PROCESSING) <==> Clear(w, t, EXECUTES)
  {
    hide Reaches, Leads, Keeping;
    if Clear(w, t, EXECUTES) {
      ProcessingKept();
      Stays(w, t, IS_PROCESSING, EXECUTES);
    } else {
      var h :| h in w.handlers && w.handlers[h].At? && w.handlers[h].t == t && EXECUTES(w.handlers[h].pc);
      var pc := w.handlers[h].pc;
      LeadsNowhere(w);
      var v := ExecutorEnds(w, w, h, t, pc, if pc.RecordRefund? then pc.success else true);
      Refutes(w, v, t, IS_PROCESSING);
    }
  }

  // --- A release without a payout ---

  const IS_UNPAID: Fact := (c: Case) => c.payout.None? && HeldIsOver(c)
  const PAYS_OUT: Danger := (pc: Pc) => pc.ReadReleased? || pc.LookupPayout? || pc.CreatePayout?

  lemma UnpaidStep(h: HandlerId, c: Case, pc: Pc, i: Input)
    requires IS_UNPAID(c) && !PAYS_OUT(pc)
    ensures StepKeeps(IS_UNPAID, PAYS_OUT, Advance(h, c, pc, i))
  {
  }

  lemma UnpaidBegin(c: Case, r: Request)
    requires IS_UNPAID(c) && Begin(c, r).Some?
    ensures !PAYS_OUT(Begin(c, r).value)
  {
  }

  lemma UnpaidKept()
    ensures Keeping(IS_UNPAID, PAYS_OUT)
  {
    hide CaseInv, PcInv, Advance, Begin, StepKeeps;
    forall h, c, pc, i: Input | CaseInv(c) && PcInv(h, c, pc, i.now) && IS_UNPAID(c) && !PAYS_OUT(pc)
      ensures StepKeeps(IS_UNPAID, PAYS_OUT, Advance(h, c, pc, i))
    {
      UnpaidStep(h, c, pc, i);
    }
    forall c, r | CaseInv(c) && IS_UNPAID(c) && Begin(c, r).Some? ensures !PAYS_OUT(Begin(c, r).value) {
      UnpaidBegin(c, r);
    }
  }

  lemma CreateInserts(w: World, v: World, h: HandlerId, t: TaskId, pc: Pc)
    requires Leads(w, v) && Stands(v, h, t, pc) && Holds(v, t, IS_UNPAID) && pc.CreatePayout?
    ensures !Forever(w, t, IS_UNPAID)
  {
    hide Leads, Forever;
    var u := Move(w, v, h, t, pc, true);
    Refutes(w, u, t, IS_UNPAID);
  }

  lemma LookupInserts(w: World, v: World, h: HandlerId, t: TaskId, pc: Pc)
    requires Leads(w, v) && Stands(v, h, t, pc) && Holds(v, t, IS_UNPAID) && pc.LookupPayout?
    ensures !Forever(w, t, IS_UNPAID)
  {
    hide Leads, Forever;
    var u := Move(w, v, h, t, pc, true);
    CreateInserts(w, u, h, t, CreatePayout(pc.doer, pc.amount));
  }

  /** A handler that released the money goes on to create the payout row. */
  lemma CreatorPays(w: World, h: HandlerId, t: TaskId, pc: Pc)
    requires Reaches(w) && Stands(w, h, t, pc) && Holds(w, t, IS_UNPAID) && PAYS_OUT(pc)
    ensures !Forever(w, t, IS_UNPAID)
  {
    hide Reaches, Leads, Forever, FundingInv, PaymentInv, HeldInv, RefundInv, AssignmentInv;
    StandsSound(w, h, t, pc);
    LeadsNowhere(w);
    if pc.CreatePayout? {
      CreateInserts(w, w, h, t, pc);
    } else if pc.LookupPayout? {
      LookupInserts(w, w, h, t, pc);
    } else {
      var v := Move(w, w, h, t, pc, true);
      LookupInserts(w, v, h, t, LookupPayout(pc.worker.value, w.cases[t].escrow.value.amounts.netPayout));
    }
  }

  /** Once the money cannot be held again, a task without a payout row never gets one exactly
      when no handler that released it is on its way to create the row: a handler that dies
      there leaves the doer unpaid, and nothing makes up for it. */
  lemma UnpaidIsFinalExactly(w: World, t: TaskId)
    requires Reaches(w) && Holds(w, t, IS_UNPAID)
    ensures Forever(w, t, IS_UNPAID) <==> Clear(w, t, PAYS_OUT)
  {
    hide Reaches, Leads, Keeping;
    if Clear(w, t, PAYS_OUT) {
      UnpaidKept();
      Stays(w, t, IS_UNPAID, PAYS_OUT);
    } else {
      var h :| h in w.handlers && w.handlers[h].At? && w.handlers[h].t == t && PAYS_OUT(w.handlers[h].pc);
      CreatorPays(w, h, t, w.handlers[h].pc);
    }
  }

  // --- Money that gets out ---

  /** The provider has given the money back, and the rows say so. */
  const MONEY_BACK: Fact := (c: Case) => EscrowIs(c, Refunded) && c.refund.Some? && c.refund.value.status == RefundDone

  const CONFIRMED: Fact := (c: Case) => c.refund.Some? && c.refund.value.status == RefundDone

  /** Some path leads to a world in which `fact` holds. */
  ghost predicate Possible(w: World, t: TaskId, fact: Fact) {
    exists v :: Leads(w, v) && Holds(v, t, fact)
  }

  predicate Claimable(c: Case) {
    c.refund.Some? && (c.refund.value.status == Queued || c.refund.value.status == RefundFailed)
  }

  lemma ExecutedRefunds(w: World, v: World, h: HandlerId, t: TaskId, pc: Pc) returns (u: World)
    requires Leads(w, v) && Stands(v, h, t, pc) && t < |v.cases| && v.cases[t].refund.Some? && v.cases[t].escrow.Some?
    requires pc.CallRefund? || pc == RecordRefund(true)
    ensures Leads(w, u) && Holds(u, t, MONEY_BACK)
  {
    hide Leads;
    u := ExecutorEnds(w, v, h, t, pc, true);
  }

  lemma ClaimantRefunds(w: World, v: World, h: HandlerId, t: TaskId, payment: PaymentId) returns (u: World)
    requires Leads(w, v) && Stands(v, h, t, ClaimExecution(payment)) && t < |v.cases| && v.cases[t].escrow.Some?
    requires Claimable(v.cases[t])
    ensures Leads(w, u) && Holds(u, t, MONEY_BACK)
  {
    hide Leads;
    var x := Move(w, v, h, t, ClaimExecution(payment), true);
    u := ExecutedRefunds(w, x, h, t, CallRefund(payment));
  }

  /** A refund that is queued or failed is retried, and the provider accepts. */
  lemma RetryRefunds(w: World, v: World, t: TaskId) returns (u: World)
    requires Reaches(w) && Leads(w, v) && t < |v.cases| && Claimable(v.cases[t])
    ensures Leads(w, u) && Holds(u, t, MONEY_BACK)
  {
    hide Reaches, Leads, FundingInv, PaymentInv, HeldInv, ReleaseInv, AssignmentInv;
    LeadsReaches(w, v);
    RowsSound(v, t);
    var payment := v.cases[t].escrow.value.paymentId.value;
    var h, x := Ask(w, v, t, RetryRefund);
    x := Move(w, x, h, t, ReadRefund, true);
    u := ClaimantRefunds(w, x, h, t, payment);
  }

  /** A refund in flight ends; a failure can be retried. */
  lemma ExecutorRefunds(w: World, h: HandlerId, t: TaskId, pc: Pc) returns (u: World)
    requires Reaches(w) && Stands(w, h, t, pc) && InFlight(pc)
    ensures Leads(w, u) && Holds(u, t, MONEY_BACK)
  {
    hide Reaches, Leads, FundingInv, PaymentInv, HeldInv, ReleaseInv, AssignmentInv;
    StandsSound(w, h, t, pc);
    LeadsNowhere(w);
    if pc == RecordRefund(false) {
      var v := ExecutorEnds(w, w, h, t, pc, false);
      u := RetryRefunds(w, v, t);
    } else {
      u := ExecutedRefunds(w, w, h, t, pc);
    }
  }

  lemma CreateRefunds(w: World, v: World, h: HandlerId, t: TaskId, pc: Pc) returns (u: World)
    requires Reaches(w) && Leads(w, v) && Stands(v, h, t, pc) && t < |v.cases| && v.cases[t].refund.None?
    requires pc.CreateRefund?
    ensures Leads(w, u) && Holds(u, t, MONEY_BACK)
  {
    hide Reaches, Leads;
    var x := Move(w, v, h, t, pc, true);
    u := RetryRefunds(w, x, t);
  }

  lemma ClaimRefunds(w: World, v: World, h: HandlerId, t: TaskId, pc: Pc) returns (u: World)
    requires Reaches(w) && Leads(w, v) && Stands(v, h, t, pc) && t < |v.cases| && v.cases[t].refund.None?
    requires pc.ClaimFunds?
    ensures Leads(w, u) && Holds(u, t, MONEY_BACK)
  {
    hide Reaches, Leads;
    var x := Move(w, v, h, t, pc, true);
    u := CreateRefunds(w, x, h, t, CreateRefund(pc.reason, pc.seen));
  }

  lemma LookupRefunds(w: World, v: World, h: HandlerId, t: TaskId, pc: Pc) returns (u: World)
    requires Reaches(w) && Leads(w, v) && Stands(v, h, t, pc) && t < |v.cases| && v.cases[t].refund.None?
    requires pc.LookupRefund? && Refundable(pc.seen.status) && pc.seen.paymentId.Some?
    ensures Leads(w, u) && Holds(u, t, MONEY_BACK)
  {
    hide Reaches, Leads;
    var x := Move(w, v, h, t, pc, true);
    u := ClaimRefunds(w, x, h, t, ClaimFunds(pc.reason, pc.seen));
  }

  /** An admin starts the refund of money that awaits one. */
  lemma AdminRefunds(w: World, t: TaskId) returns (u: World)
    requires Reaches(w) && t < |w.cases| && AwaitsRefund(w.cases[t]) && w.cases[t].refund.None?
    requires w.cases[t].escrow.value.paymentId.Some?
    ensures Leads(w, u) && Holds(u, t, MONEY_BACK)
  {
    hide Reaches, Leads;
    LeadsNowhere(w);
    var h, x := Ask(w, w, t, AdminRefund);
    x := Move(w, x, h, t, StartRefund(AdminReason), true);
    u := LookupRefunds(w, x, h, t, LookupRefund(AdminReason, w.cases[t].escrow.value));
  }

  /** Captured money whose payment id is missing. */
  const UNIDENTIFIED: Fact := (c: Case) =>
    c.escrow.Some? && c.escrow.value.status != Pending && c.escrow.value.paymentId.None?
  const NOWHERE: Danger := (pc: Pc) => false

  lemma UnidentifiedStep(h: HandlerId, c: Case, pc: Pc, i: Input)
    requires UNIDENTIFIED(c)
    ensures StepKeeps(UNIDENTIFIED, NOWHERE, Advance(h, c, pc, i))
  {
  }

  lemma UnidentifiedKept()
    ensures Keeping(UNIDENTIFIED, NOWHERE)
  {
    hide CaseInv, PcInv, Advance, Begin, StepKeeps;
    forall h, c, pc, i: Input | CaseInv(c) && PcInv(h, c, pc, i.now) && UNIDENTIFIED(c) && !NOWHERE(pc)
      ensures StepKeeps(UNIDENTIFIED, NOWHERE, Advance(h, c, pc, i))
    {
      UnidentifiedStep(h, c, pc, i);
    }
  }

  /** Money whose payment id is missing never gets back through the provider. */
  lemma UnidentifiedIsLost(w: World, t: TaskId)
    requires Reaches(w) && Holds(w, t, UNIDENTIFIED)
    ensures !Possible(w, t, CONFIRMED)
  {
    hide Reaches, Leads, Keeping, FundingInv, PaymentInv, HeldInv, ReleaseInv, AssignmentInv;
    UnidentifiedKept();
    Stays(w, t, UNIDENTIFIED, NOWHERE);
    forall v | Leads(w, v) ensures !Holds(v, t, CONFIRMED) {
      assert Holds(v, t, UNIDENTIFIED);
      LeadsReaches(w, v);
      RowsSound(v, t);
    }
  }

  /** Money that awaits a refund with a row that nobody executes any more stays where it is. */
  lemma AbandonedIsLost(w: World, t: TaskId)
    requires Reaches(w) && Holds(w, t, IS_PROCESSING) && Clear(w, t, EXECUTES)
    ensures !Possible(w, t, CONFIRMED)
  {
    hide Reaches, Leads;
    ProcessingIsFinalExactly(w, t);
    assert forall v :: Leads(w, v) ==> Holds(v, t, IS_PROCESSING);
  }

  /** The provider can still confirm the refund of money that awaits one, and the escrow then
      becomes REFUNDED, exactly when its payment id is known and its refund, if there is one,
      was not left in PROCESSING without an executor. */
  lemma RefundIsPossibleExactly(w: World, t: TaskId)
    requires Reaches(w) && t < |w.cases| && AwaitsRefund(w.cases[t])
    ensures Possible(w, t, CONFIRMED) <==>
              w.cases[t].escrow.value.paymentId.Some? && !(Holds(w, t, IS_PROCESSING) && Clear(w, t, EXECUTES))
    ensures !Holds(w, t, CONFIRMED) ==> (Possible(w, t, MONEY_BACK) <==> Possible(w, t, CONFIRMED))
  {
    hide Reaches, Leads, FundingInv, PaymentInv, HeldInv, ReleaseInv, AssignmentInv;
    var c := w.cases[t];
    LeadsNowhere(w);
    RowsSound(w, t);
    assert forall v :: Holds(v, t, MONEY_BACK) ==> Holds(v, t, CONFIRMED);
    if c.escrow.value.paymentId.None? {
      UnidentifiedIsLost(w, t);
    } else if Holds(w, t, IS_PROCESSING) {
      if Clear(w, t, EXECUTES) {
        AbandonedIsLost(w, t);
      } else {
        var h :| h in w.handlers && w.handlers[h].At? && w.handlers[h].t == t && EXECUTES(w.handlers[h].pc);
        var u := ExecutorRefunds(w, h, t, w.handlers[h].pc);
      }
    } else if c.refund.None? {
      var u := AdminRefunds(w, t);
    } else if Claimable(c) {
      var u := RetryRefunds(w, w, t);
    } else {
      assert Holds(w, t, CONFIRMED);
    }
  }

  // --- RELEASED ---

  const IS_RELEASED: Fact := (c: Case) => EscrowIs(c, Released)

  /** No dispute has been raised, and nobody can raise one: of a released task, only one
      that was revived and cancelled is like that. */
  predicate BeyondDispute(c: Case) {
    c.dispute.None? && c.task.status == Cancelled
  }

  /** Released, and neither a dispute nor a refund row can touch it. */
  const SHUT: Fact := (c: Case) => EscrowIs(c, Released) && BeyondDispute(c) && c.refund.None?
  /** A status write, or a refund that read the escrow before its release. */
  const REOPENS: Danger := (pc: Pc) => REVIVES(pc) || pc.ClaimFunds? || pc.CreateRefund?
    || (pc.LookupRefund? && Refundable(pc.seen.status) && pc.seen.paymentId.Some?)

  /** Released, with a refund row that nobody may claim any more. */
  const SPENT: Fact := (c: Case) => EscrowIs(c, Released) && BeyondDispute(c)
    && c.refund.Some? && (c.refund.value.status == Processing || c.refund.value.status == RefundDone)
  const REVIVES_OR_EXECUTES: Danger := (pc: Pc) => REVIVES(pc) || InFlight(pc)

  lemma ShutStep(h: HandlerId, c: Case, pc: Pc, i: Input)
    requires SHUT(c) && !REOPENS(pc)
    ensures StepKeeps(SHUT, REOPENS, Advance(h, c, pc, i))
  {
  }

  lemma ShutBegin(c: Case, r: Request)
    requires SHUT(c) && Begin(c, r).Some?
    ensures !REOPENS(Begin(c, r).value)
  {
  }

  lemma ShutKept()
    ensures Keeping(SHUT, REOPENS)
  {
    hide CaseInv, PcInv, Advance, Begin, StepKeeps;
    forall h, c, pc, i: Input | CaseInv(c) && PcInv(h, c, pc, i.now) && SHUT(c) && !REOPENS(pc)
      ensures StepKeeps(SHUT, REOPENS, Advance(h, c, pc, i))
    {
      ShutStep(h, c, pc, i);
    }
    forall c, r | CaseInv(c) && SHUT(c) && Begin(c, r).Some? ensures !REOPENS(Begin(c, r).value) {
      ShutBegin(c, r);
    }
    forall pc | IsEntry(pc) ensures !REOPENS(pc) {
      assert !REVIVES(pc) && !InFlight(pc);
    }
  }

  lemma SpentStep(h: HandlerId, c: Case, pc: Pc, i: Input)
    requires SPENT(c) && !REVIVES_OR_EXECUTES(pc)
    ensures StepKeeps(SPENT, REVIVES_OR_EXECUTES, Advance(h, c, pc, i))
  {
    assert !REVIVES(pc) && !InFlight(pc);
  }

  lemma SpentBegin(c: Case, r: Request)
    requires SPENT(c) && Begin(c, r).Some?
    ensures !REVIVES_OR_EXECUTES(Begin(c, r).value)
  {
  }

  lemma SpentKept()
    ensures Keeping(SPENT, REVIVES_OR_EXECUTES)
  {
    hide CaseInv, PcInv, Advance, Begin, StepKeeps;
    forall h, c, pc, i: Input | CaseInv(c) && PcInv(h, c, pc, i.now) && SPENT(c) && !REVIVES_OR_EXECUTES(pc)
      ensures StepKeeps(SPENT, REVIVES_OR_EXECUTES, Advance(h, c, pc, i))
    {
      SpentStep(h, c, pc, i);
    }
    forall c, r | CaseInv(c) && SPENT(c) && Begin(c, r).Some? ensures !REVIVES_OR_EXECUTES(Begin(c, r).value) {
      SpentBegin(c, r);
    }
    forall pc | IsEntry(pc) ensures !REVIVES_OR_EXECUTES(pc) {
      assert !REVIVES(pc) && !InFlight(pc);
    }
  }

  predicate Disputable(s: TaskStatus) {
    s == Assigned || s == InProgress || s == Completed
  }

  /** A participant disputes a released task. */
  lemma DisputedLeaves(w: World, v: World, t: TaskId)
    requires Reaches(w) && Leads(w, v) && Holds(v, t, IS_RELEASED)
    requires v.cases[t].dispute.None? && Disputable(v.cases[t].task.status)
    ensures !Forever(w, t, IS_RELEASED)
  {
    hide Reaches, Leads, Forever, PaymentInv, HeldInv, ReleaseInv, RefundInv, AssignmentInv;
    LeadsReaches(w, v);
    RowsSound(v, t);
    var c := v.cases[t];
    var h, u := Ask(w, v, t, RaiseDispute(c.task.posterId));
    var x := Move(w, u, h, t, DisputeFunds(c.task.posterId, c.task.mode), true);
    Refutes(w, x, t, IS_RELEASED);
  }

  /** A handler that has still to write the status reopens the task. */
  lemma WriterLeaves(w: World, h: HandlerId, t: TaskId, pc: Pc)
    requires Reaches(w) && Stands(w, h, t, pc) && Holds(w, t, IS_RELEASED) && w.cases[t].dispute.None? && REVIVES(pc)
    ensures !Forever(w, t, IS_RELEASED)
  {
    hide Reaches, Leads, Forever, PaymentInv, HeldInv, ReleaseInv, RefundInv;
    StandsSound(w, h, t, pc);
    LeadsNowhere(w);
    var v := Move(w, w, h, t, pc, true);
    if pc.DisputeFunds? {
      Refutes(w, v, t, IS_RELEASED);
    } else {
      DisputedLeaves(w, v, t);
    }
  }

  /** A refund that goes through takes the escrow out of RELEASED. */
  lemma RefundedLeaves(w: World, v: World, t: TaskId)
    requires Leads(w, v) && Holds(v, t, MONEY_BACK)
    ensures !Forever(w, t, IS_RELEASED)
  {
    hide Leads, Forever;
    Refutes(w, v, t, IS_RELEASED);
  }

  /** A refund that read the escrow before the release creates its row all the same. */
  lemma RefunderLeaves(w: World, h: HandlerId, t: TaskId, pc: Pc)
    requires Reaches(w) && Stands(w, h, t, pc) && t < |w.cases| && w.cases[t].refund.None?
    requires || pc.ClaimFunds? || pc.CreateRefund?
             || (pc.LookupRefund? && Refundable(pc.seen.status) && pc.seen.paymentId.Some?)
    ensures !Forever(w, t, IS_RELEASED)
  {
    hide Reaches, Leads, Forever, Holds;
    LeadsNowhere(w);
    var u;
    if pc.CreateRefund? {
      u := CreateRefunds(w, w, h, t, pc);
    } else if pc.ClaimFunds? {
      u := ClaimRefunds(w, w, h, t, pc);
    } else {
      u := LookupRefunds(w, w, h, t, pc);
    }
    RefundedLeaves(w, u, t);
  }

  /** A released escrow stays RELEASED exactly when no dispute of the task can be raised or
      resolved any more and no refund of it can still go through. In particular it does not
      while its task is COMPLETED: a dispute may always take it back. */
  lemma ReleasedIsFinalExactly(w: World, t: TaskId)
    requires Reaches(w) && Holds(w, t, IS_RELEASED)
    ensures Forever(w, t, IS_RELEASED) <==>
              || (Holds(w, t, SHUT) && Clear(w, t, REOPENS))
              || (Holds(w, t, SPENT) && Clear(w, t, REVIVES_OR_EXECUTES))
  {
    hide Reaches, Leads, Keeping, PaymentInv, HeldInv, RefundInv;
    RowsSound(w, t);
    LeadsNowhere(w);
    if Holds(w, t, SHUT) && Clear(w, t, REOPENS) {
      ShutKept();
      Stays(w, t, SHUT, REOPENS);
      assert forall v :: Leads(w, v) ==> Holds(v, t, SHUT);
    } else if Holds(w, t, SPENT) && Clear(w, t, REVIVES_OR_EXECUTES) {
      SpentKept();
      Stays(w, t, SPENT, REVIVES_OR_EXECUTES);
      assert forall v :: Leads(w, v) ==> Holds(v, t, SPENT);
    } else {
      ReleasedLeaves(w, t);
    }
  }

  lemma ReleasedLeaves(w: World, t: TaskId)
    requires Reaches(w) && Holds(w, t, IS_RELEASED)
    requires !(Holds(w, t, SHUT) && Clear(w, t, REOPENS)) && !(Holds(w, t, SPENT) && Clear(w, t, REVIVES_OR_EXECUTES))
    ensures !Forever(w, t, IS_RELEASED)
  {
    hide Reaches, Leads, Forever, PaymentInv, HeldInv, RefundInv;
    RowsSound(w, t);
    LeadsNowhere(w);
    var c := w.cases[t];
    if c.dispute.Some? {
      var v := ResolvedLeaves(w, t);
      Refutes(w, v, t, IS_RELEASED);
    } else if Disputable(c.task.status) {
      DisputedLeaves(w, w, t);
    } else if !Clear(w, t, REVIVES) {
      var h :| h in w.handlers && w.handlers[h].At? && w.handlers[h].t == t && REVIVES(w.handlers[h].pc);
      WriterLeaves(w, h, t, w.handlers[h].pc);
    } else if c.refund.None? {
      var h :| h in w.handlers && w.handlers[h].At? && w.handlers[h].t == t && REOPENS(w.handlers[h].pc);
      RefunderLeaves(w, h, t, w.handlers[h].pc);
    } else if c.refund.value.status == Queued || c.refund.value.status == RefundFailed {
      var u := RetryRefunds(w, w, t);
      RefundedLeaves(w, u, t);
    } else {
      var h :| h in w.handlers && w.handlers[h].At? && w.handlers[h].t == t && REVIVES_OR_EXECUTES(w.handlers[h].pc);
      var u := ExecutorRefunds(w, h, t, w.handlers[h].pc);
      RefundedLeaves(w, u, t);
    }
  }
}
