/** Safety over whole runs: what no interleaving of handlers, stale writes, disputes,
    admin actions and crashes can bring about.

    Results that count events are stated over the labels of the run and the program
    points that moved, not over the trail kept with the rows; the trail only carries
    their proofs. */
module Safety {
  import opened Wrappers
  import opened Rows
  import opened Handlers
  import opened Invariants
  import opened World
  import Orders

  // --- Reading a run ---

  /** The program point that a label moves, with the task it stands on. */
  function Moved(w: World, l: Label): Option<(TaskId, Pc)> {
    if l.Run? && l.h in w.handlers && w.handlers[l.h].At? then Some((w.handlers[l.h].t, w.handlers[l.h].pc)) else None
  }

  ghost function InputOf(w: World, l: Label): Input
    requires Moved(w, l).Some?
  {
    Input(w.now, l.configured, l.success, ProfileFor(w, Moved(w, l).value.1))
  }

  type Test = (World, Label) -> bool

  /** How many of the first `n` steps of a run pass a test. */
  ghost function Count(ws: seq<World>, ls: seq<Label>, n: nat, test: Test): nat
    requires IsRun(ws, ls) && n <= |ls|
  {
    if n == 0 then 0
    else Count(ws, ls, n - 1, test) + (if test(ws[n - 1], ls[n - 1]) then 1 else 0)
  }

  /** The rows of a task after a step. */
  lemma RowsAfter(w: World, l: Label, v: World, t: TaskId)
    requires FromTo(w, l, v) && t < |v.cases|
    ensures |w.cases| <= |v.cases|
    ensures t >= |w.cases| ==> l.Create? && v.cases[t] == NewCase(l.uuid, l.poster, l.split.budget, l.mode, l.tier)
    ensures t < |w.cases| ==>
              v.cases[t] ==
              if Moved(w, l).Some? && Moved(w, l).value.0 == t
              then Advance(l.h, w.cases[t], Moved(w, l).value.1, InputOf(w, l)).rows else w.cases[t]
  {
    hide Advance, Begin;
  }

  /** The point that moves on a reachable world has what it relies on. */
  lemma MovedInv(w: World, l: Label)
    requires Inv(w) && Moved(w, l).Some?
    ensures Moved(w, l).value.0 < |w.cases| && CaseInv(w.cases[Moved(w, l).value.0])
    ensures PcInv(l.h, w.cases[Moved(w, l).value.0], Moved(w, l).value.1, w.now)
  {
    hide CaseInv, PcInv;
  }

  ghost predicate Tracks(m: World -> int, test: Test) {
    forall w, l, v :: FromTo(w, l, v) && Inv(w) ==> m(v) == m(w) + (if test(w, l) then 1 else 0)
  }

  /** A measure that starts at zero and moves with a test counts it. */
  lemma {:induction false} CountIs(ws: seq<World>, ls: seq<Label>, n: nat, test: Test, m: World -> int)
    requires IsRun(ws, ls) && n <= |ls|
    requires m(EMPTY) == 0 && Tracks(m, test)
    ensures Count(ws, ls, n, test) == m(ws[n])
  {
    hide Inv, FromTo;
    if n == 0 {
    } else {
      CountIs(ws, ls, n - 1, test, m);
      RunInv(ws, ls, n - 1);
      assert FromTo(ws[n - 1], ls[n - 1], ws[n]);
    }
  }

  // --- CANCELLED and HELD ---

  /** No run reaches a cancelled task whose escrow is held, so the repair query of the
      sweep never finds a row. */
  lemma NoCancelledHeld(ws: seq<World>, ls: seq<Label>, n: nat, t: TaskId)
    requires IsRun(ws, ls) && n < |ws| && t < |ws[n].cases|
    ensures !IsAnomaly(ws[n].cases[t])
    ensures Anomalies(ws[n].cases) == {}
  {
    RunInv(ws, ls, n);
    assert forall u :: 0 <= u < |ws[n].cases| ==> CaseInv(ws[n].cases[u]);
  }

  // --- HELD is a one-shot token ---

  predicate HeldAt(w: World, t: TaskId) {
    t < |w.cases| && IsHeld(w.cases[t])
  }

  /** The step changes whether the escrow of `t` is HELD. */
  ghost function Enters(t: TaskId): Test {
    (w: World, l: Label) => Moved(w, l).Some? && Moved(w, l).value.0 == t && t < |w.cases| && !IsHeld(w.cases[t])
      && IsHeld(Advance(l.h, w.cases[t], Moved(w, l).value.1, InputOf(w, l)).rows)
  }

  ghost function Leaves(t: TaskId): Test {
    (w: World, l: Label) => Moved(w, l).Some? && Moved(w, l).value.0 == t && t < |w.cases| && IsHeld(w.cases[t])
      && !IsHeld(Advance(l.h, w.cases[t], Moved(w, l).value.1, InputOf(w, l)).rows)
  }

  /** The four statements that may take the token. */
  predicate TakesHeld(pc: Pc) {
    pc.ReleaseFunds? || pc.CancelFunds? || pc.ClaimFunds? || pc.DisputeFunds?
  }

  /** The statements that write an escrow row. */
  predicate WritesEscrow(pc: Pc) {
    TakesHeld(pc) || pc.FundEscrow? || pc.RecordRefund? || pc.SettleDispute? || pc.InsertMoney? || pc.WriteEscrowOrder?
  }

  lemma EscrowStays(h: HandlerId, c: Case, pc: Pc, i: Input)
    requires !WritesEscrow(pc)
    ensures var d := Advance(h, c, pc, i).rows;
            d.escrow == c.escrow && d.trail.heldEntries == c.trail.heldEntries && d.trail.heldExits == c.trail.heldExits
  {
  }

  /** What a step does to HELD, and that the trail takes note. */
  predicate HeldMove(c: Case, d: Case, pc: Pc) {
    && (IsHeld(c) && !IsHeld(d) ==> TakesHeld(pc))
    && (!IsHeld(c) && IsHeld(d) ==> pc.FundEscrow?)
    && d.trail.heldEntries == c.trail.heldEntries + (if !IsHeld(c) && IsHeld(d) then 1 else 0)
    && d.trail.heldExits == c.trail.heldExits + (if IsHeld(c) && !IsHeld(d) then 1 else 0)
  }

  lemma HeldTaken(h: HandlerId, c: Case, pc: Pc, i: Input)
    requires TakesHeld(pc)
    ensures HeldMove(c, Advance(h, c, pc, i).rows, pc)
  {
  }

  lemma HeldWritten(h: HandlerId, c: Case, pc: Pc, i: Input)
    requires CaseInv(c) && PcInv(h, c, pc, i.now) && WritesEscrow(pc) && !TakesHeld(pc)
    ensures HeldMove(c, Advance(h, c, pc, i).rows, pc)
  {
    hide FundingInv, PaymentInv, ReleaseInv, AssignmentInv;
  }

  lemma HeldMoves(h: HandlerId, c: Case, pc: Pc, i: Input)
    requires CaseInv(c) && PcInv(h, c, pc, i.now)
    ensures HeldMove(c, Advance(h, c, pc, i).rows, pc)
  {
    hide CaseInv, PcInv, Advance;
    if TakesHeld(pc) {
      HeldTaken(h, c, pc, i);
    } else if WritesEscrow(pc) {
      HeldWritten(h, c, pc, i);
    } else {
      EscrowStays(h, c, pc, i);
    }
  }

  /** A trail counter of one task, zero before the task exists. */
  function CounterOf(t: TaskId, counter: Trail -> nat): World -> int {
    (w: World) => if t < |w.cases| then counter(w.cases[t].trail) else 0
  }

  lemma HeldTracks(t: TaskId)
    ensures Tracks(CounterOf(t, (a: Trail) => a.heldEntries), Enters(t))
    ensures Tracks(CounterOf(t, (a: Trail) => a.heldExits), Leaves(t))
  {
    hide Inv, FromTo, Advance, CaseInv, PcInv;
    forall w, l, v | FromTo(w, l, v) && Inv(w) && t < |v.cases|
      ensures CounterOf(t, (a: Trail) => a.heldEntries)(v)
           == CounterOf(t, (a: Trail) => a.heldEntries)(w) + (if Enters(t)(w, l) then 1 else 0)
      ensures CounterOf(t, (a: Trail) => a.heldExits)(v)
           == CounterOf(t, (a: Trail) => a.heldExits)(w) + (if Leaves(t)(w, l) then 1 else 0)
    {
      RowsAfter(w, l, v, t);
      if Moved(w, l).Some? {
        MovedInv(w, l);
        if Moved(w, l).value.0 == t {
          HeldMoves(l.h, w.cases[t], Moved(w, l).value.1, InputOf(w, l));
        }
      }
    }
    forall w, l, v | FromTo(w, l, v) && Inv(w) && t >= |v.cases|
      ensures !Enters(t)(w, l) && !Leaves(t)(w, l) && |w.cases| <= t
    {
      TableGrows(w, l, v);
    }
  }

  lemma TableGrows(w: World, l: Label, v: World)
    requires FromTo(w, l, v)
    ensures |w.cases| <= |v.cases|
  {
    hide Advance, Begin;
  }

  /** In every run an escrow enters HELD at most once and leaves it at most once, only by
      a release, a cancel, a refund claim or a dispute. */
  lemma HeldIsOneShot(ws: seq<World>, ls: seq<Label>, n: nat, t: TaskId)
    requires IsRun(ws, ls) && n <= |ls|
    ensures Count(ws, ls, n, Leaves(t)) <= Count(ws, ls, n, Enters(t)) <= 1
    ensures HeldAt(ws[n], t) <==> Count(ws, ls, n, Enters(t)) == 1 && Count(ws, ls, n, Leaves(t)) == 0
    ensures forall i :: 0 <= i < n && Leaves(t)(ws[i], ls[i]) ==> TakesHeld(Moved(ws[i], ls[i]).value.1)
  {
    hide FromTo, Advance, FundingInv, PaymentInv, ReleaseInv, RefundInv, AssignmentInv, HandlersInv, CountersInv;
    hide Tracks;
    HeldTracks(t);
    CountIs(ws, ls, n, Enters(t), CounterOf(t, (a: Trail) => a.heldEntries));
    CountIs(ws, ls, n, Leaves(t), CounterOf(t, (a: Trail) => a.heldExits));
    RunInv(ws, ls, n);
    if t < |ws[n].cases| {
      assert CaseInv(ws[n].cases[t]);
    }
    forall i | 0 <= i < n && Leaves(t)(ws[i], ls[i]) ensures TakesHeld(Moved(ws[i], ls[i]).value.1) {
      RunInv(ws, ls, i);
      MovedInv(ws[i], ls[i]);
      HeldMoves(ls[i].h, ws[i].cases[t], Moved(ws[i], ls[i]).value.1, InputOf(ws[i], ls[i]));
    }
  }

  // --- Counting statements ---

  /** A kind of statement, told by the rows it finds, its program point and the
      provider's answer. */
  type Kind = (Case, Pc, bool) -> bool

  function Steps(t: TaskId, kind: Kind): Test {
    (w: World, l: Label) => Moved(w, l).Some? && Moved(w, l).value.0 == t && t < |w.cases|
      && kind(w.cases[t], Moved(w, l).value.1, l.success)
  }

  const ANNOUNCES: Kind := (c: Case, pc: Pc, ok: bool) => pc.Announce?
  const ASSIGNS: Kind := (c: Case, pc: Pc, ok: bool) => pc.Assign? && c.task.status == Open && c.task.doerId.None?
  const EMITS_ACCEPTED: Kind := (c: Case, pc: Pc, ok: bool) => pc.EmitAccept?
  const OPENS: Kind := (c: Case, pc: Pc, ok: bool) => (pc.FundEscrow? || pc.FundFee?) && c.task.status == PendingPayment
  const CANCELS: Kind := (c: Case, pc: Pc, ok: bool) => pc.CancelFunds? && Cancellable(c.task.status)
  const RELEASES: Kind := (c: Case, pc: Pc, ok: bool) => pc.ReleaseFunds? && IsHeld(c)
  const DISPATCHES: Kind := (c: Case, pc: Pc, ok: bool) => pc.Dispatch?
  const EMITS_RELEASED: Kind := (c: Case, pc: Pc, ok: bool) => pc.EmitRelease?
  const CALLS_PROVIDER: Kind := (c: Case, pc: Pc, ok: bool) => pc.CallRefund?
  const REFUNDS_MONEY: Kind := (c: Case, pc: Pc, ok: bool) => pc.CallRefund? && ok

  ghost predicate Ticks(counter: Trail -> nat, kind: Kind) {
    && counter(NO_TRAIL) == 0
    && forall h, c, pc, i :: counter(Advance(h, c, pc, i).rows.trail) ==
         counter(c.trail) + (if kind(c, pc, i.success) then 1 else 0)
  }

  lemma TicksCount(ws: seq<World>, ls: seq<Label>, n: nat, t: TaskId, counter: Trail -> nat, kind: Kind)
    requires IsRun(ws, ls) && n <= |ls| && Ticks(counter, kind)
    ensures Count(ws, ls, n, Steps(t, kind)) == if t < |ws[n].cases| then counter(ws[n].cases[t].trail) else 0
  {
    assert Tracks(CounterOf(t, counter), Steps(t, kind)) by {
      hide Inv, FromTo, Advance, CaseInv, PcInv;
      forall w, l, v | FromTo(w, l, v) && Inv(w)
        ensures CounterOf(t, counter)(v) == CounterOf(t, counter)(w) + (if Steps(t, kind)(w, l) then 1 else 0)
      {
        TableGrows(w, l, v);
        if t < |v.cases| {
          RowsAfter(w, l, v, t);
        }
      }
    }
    CountIs(ws, ls, n, Steps(t, kind), CounterOf(t, counter));
  }

  lemma OpensTick()
    ensures Ticks((a: Trail) => a.opens, OPENS)
  {
  }

  lemma AnnouncedTick()
    ensures Ticks((a: Trail) => a.announced, ANNOUNCES)
  {
  }

  lemma AcceptedTick()
    ensures Ticks((a: Trail) => a.accepted, EMITS_ACCEPTED)
  {
  }

  lemma CancelsTick()
    ensures Ticks((a: Trail) => a.cancels, CANCELS)
  {
  }

  lemma ReleasesTick()
    ensures Ticks((a: Trail) => a.releases, RELEASES)
  {
  }

  lemma DispatchesTick()
    ensures Ticks((a: Trail) => a.dispatches, DISPATCHES)
  {
  }

  lemma PaidEventsTick()
    ensures Ticks((a: Trail) => a.paidEvents, EMITS_RELEASED)
  {
  }

  lemma CallsTick()
    ensures Ticks((a: Trail) => a.calls, CALLS_PROVIDER)
  {
  }

  lemma SuccessesTick()
    ensures Ticks((a: Trail) => a.successes, REFUNDS_MONEY)
  {
  }

  /** In every run a task opens at most once and is announced at most once; at most one
      TASK_ACCEPTED is emitted, and only for an assigned task; the doer is not the poster. */
  lemma OpensAndAcceptsOnce(ws: seq<World>, ls: seq<Label>, n: nat, t: TaskId)
    requires IsRun(ws, ls) && n <= |ls| && t < |ws[n].cases|
    ensures Count(ws, ls, n, Steps(t, ANNOUNCES)) <= Count(ws, ls, n, Steps(t, OPENS)) <= 1
    ensures Count(ws, ls, n, Steps(t, EMITS_ACCEPTED)) <= (if ws[n].cases[t].task.doerId.Some? then 1 else 0)
    ensures ws[n].cases[t].task.doerId.Some? ==>
              ws[n].cases[t].task.doerId != Some(ws[n].cases[t].task.posterId)
              && Count(ws, ls, n, Steps(t, OPENS)) == 1
  {
    hide FromTo, Ticks, Advance, PaymentInv, HeldInv, ReleaseInv, RefundInv, HandlersInv, CountersInv;
    OpensTick();
    AnnouncedTick();
    AcceptedTick();
    TicksCount(ws, ls, n, t, (a: Trail) => a.opens, OPENS);
    TicksCount(ws, ls, n, t, (a: Trail) => a.announced, ANNOUNCES);
    TicksCount(ws, ls, n, t, (a: Trail) => a.accepted, EMITS_ACCEPTED);
    RunInv(ws, ls, n);
    assert CaseInv(ws[n].cases[t]);
  }

  /** In every run the escrow of a task is released at most once; at most one payout is
      dispatched and at most one PAYMENT_RELEASED is emitted, never without a release, and
      the payout row is worth the net amount and belongs to the assigned doer. */
  lemma PaysOutOnce(ws: seq<World>, ls: seq<Label>, n: nat, t: TaskId)
    requires IsRun(ws, ls) && n <= |ls| && t < |ws[n].cases|
    ensures Count(ws, ls, n, Steps(t, DISPATCHES)) <= Count(ws, ls, n, Steps(t, RELEASES)) <= 1
    ensures Count(ws, ls, n, Steps(t, EMITS_RELEASED)) <= Count(ws, ls, n, Steps(t, RELEASES))
    ensures var c := ws[n].cases[t];
            c.payout.Some? ==>
              && Count(ws, ls, n, Steps(t, RELEASES)) == 1
              && Earned(c) == Some(Transfer(Some(c.payout.value.doerId), c.payout.value.amount))
  {
    hide FromTo, Ticks, Advance, FundingInv, PaymentInv, RefundInv, AssignmentInv, HandlersInv, CountersInv;
    ReleasesTick();
    DispatchesTick();
    PaidEventsTick();
    TicksCount(ws, ls, n, t, (a: Trail) => a.releases, RELEASES);
    TicksCount(ws, ls, n, t, (a: Trail) => a.dispatches, DISPATCHES);
    TicksCount(ws, ls, n, t, (a: Trail) => a.paidEvents, EMITS_RELEASED);
    RunInv(ws, ls, n);
    assert CaseInv(ws[n].cases[t]);
  }

  /** In every run the provider is called at most as often as the refund row says, at most
      one call gives the money back, and a completed refund means that one did. */
  lemma RefundsOnce(ws: seq<World>, ls: seq<Label>, n: nat, t: TaskId)
    requires IsRun(ws, ls) && n <= |ls| && t < |ws[n].cases|
    ensures Count(ws, ls, n, Steps(t, REFUNDS_MONEY)) <= 1
    ensures Count(ws, ls, n, Steps(t, CALLS_PROVIDER)) <=
              (if ws[n].cases[t].refund.Some? then ws[n].cases[t].refund.value.attempts else 0)
    ensures ws[n].cases[t].refund.Some? && ws[n].cases[t].refund.value.status == RefundDone ==>
              Count(ws, ls, n, Steps(t, REFUNDS_MONEY)) == 1
  {
    hide FromTo, Ticks, Advance, FundingInv, PaymentInv, HeldInv, ReleaseInv, AssignmentInv, HandlersInv, CountersInv;
    CallsTick();
    SuccessesTick();
    TicksCount(ws, ls, n, t, (a: Trail) => a.calls, CALLS_PROVIDER);
    TicksCount(ws, ls, n, t, (a: Trail) => a.successes, REFUNDS_MONEY);
    RunInv(ws, ls, n);
    assert CaseInv(ws[n].cases[t]);
  }

  /** Between the claim of a refund and the record of its result no second handler gets in. */
  lemma OneExecutor(ws: seq<World>, ls: seq<Label>, n: nat, h: HandlerId, k: HandlerId)
    requires IsRun(ws, ls) && n < |ws| && h in ws[n].handlers && k in ws[n].handlers
    requires var x, y := ws[n].handlers[h], ws[n].handlers[k];
             x.At? && y.At? && x.t == y.t && InFlight(x.pc) && InFlight(y.pc)
    ensures h == k
    ensures var t := ws[n].handlers[h].t;
            t < |ws[n].cases| && ws[n].cases[t].refund.Some? && ws[n].cases[t].refund.value.status == Processing
  {
    hide FromTo, Inv, InFlight;
    RunInv(ws, ls, n);
    ExecutorOwns(ws[n], h);
    ExecutorOwns(ws[n], k);
  }

  lemma ExecutorOwns(w: World, h: HandlerId)
    requires Inv(w) && h in w.handlers && w.handlers[h].At? && InFlight(w.handlers[h].pc)
    ensures w.handlers[h].t < |w.cases| && Owns(h, w.cases[w.handlers[h].t])
  {
    hide CasesInv, CountersInv, JobInv, CauseInv, WonRelease, Follows;
    assert HandlerInv(w, h, w.handlers[h]);
  }

  predicate InFlight(pc: Pc) {
    pc.CallRefund? || pc.RecordRefund?
  }

  // --- The job counter ---

  function ReleasesFor(user: UserId): Test {
    (w: World, l: Label) => Moved(w, l).Some? && Moved(w, l).value.0 < |w.cases|
      && Moved(w, l).value.1.ReleaseFunds? && Moved(w, l).value.1.worker == Some(user)
      && IsHeld(w.cases[Moved(w, l).value.0])
  }

  function Credits(user: UserId): World -> int {
    (w: World) => Sum(w.cases, CreditOf(user))
  }

  lemma CreditsTrack(user: UserId)
    ensures Tracks(Credits(user), ReleasesFor(user))
  {
    hide FromTo, Advance, FundingInv, PaymentInv, RefundInv, AssignmentInv, HandlersInv, CountersInv;
    forall w, l, v | FromTo(w, l, v) && Inv(w)
      ensures Credits(user)(v) == Credits(user)(w) + (if ReleasesFor(user)(w, l) then 1 else 0)
    {
      CreditStep(w, l, v, user);
    }
  }

  lemma CreditStep(w: World, l: Label, v: World, user: UserId)
    requires FromTo(w, l, v) && Inv(w)
    ensures Credits(user)(v) == Credits(user)(w) + (if ReleasesFor(user)(w, l) then 1 else 0)
  {
    hide Advance, Begin, FundingInv, PaymentInv, RefundInv, AssignmentInv, HandlersInv, CountersInv;
    if l.Create? {
      SumAppend(w.cases, v.cases[|w.cases|], CreditOf(user));
    } else if Moved(w, l).Some? {
      var t, pc := Moved(w, l).value.0, Moved(w, l).value.1;
      MovedInv(w, l);
      ReleasesGrow(l.h, w.cases[t], pc, InputOf(w, l));
      SumUpdate(w.cases, t, v.cases[t], CreditOf(user));
    } else {
      assert v.cases == w.cases;
    }
  }

  /** In every run a profile's job counter is exactly the number of release transactions
      that found the escrow HELD and carried this doer. */
  lemma JobsAreReleases(ws: seq<World>, ls: seq<Label>, n: nat, user: UserId)
    requires IsRun(ws, ls) && n <= |ls| && user in ws[n].profiles
    ensures ws[n].profiles[user].jobs == Count(ws, ls, n, ReleasesFor(user))
  {
    hide FromTo, Tracks, CasesInv, HandlersInv;
    CreditsTrack(user);
    CountIs(ws, ls, n, ReleasesFor(user), Credits(user));
    RunInv(ws, ls, n);
  }
}
