/** Which transactions of the running system can deadlock: the lock order of `LockOrder`,
    started from the rows and the handlers of a reachable world. */
module Deadlocks {
  import opened Wrappers
  import opened Rows
  import opened Handlers
  import opened Invariants
  import opened World
  import opened Races
  import opened LockOrder

  function StatusOf(c: Case): Status {
    Status(c.task.status, if c.escrow.Some? then Some(c.escrow.value.status) else None, c.dispute.Some?)
  }

  /** The transaction that a handler is about to start. */
  function KindOf(x: Handler): Option<Kind> {
    if !x.At? then None
    else match x.pc
      case FundEscrow(_, _) => Some(Funding(x.t))
      case CancelFunds(_) => Some(CancelOf(x.t))
      case ReleaseFunds(worker, cause) =>
        if worker.Some? then Some(ReleaseOf(x.t, worker.value, cause.ByConfirm?)) else None
      case DisputeFunds(_, _) => Some(DisputeOf(x.t))
      case SettleDispute(_, refundPoster) => Some(ResolveOf(x.t, refundPoster))
      case _ => None
  }

  /** The rows left by a transaction that runs to its end without interference. */
  function Finished(x: Txn, s: Status, patient: bool, fuel: nat): Status
    decreases fuel
  {
    if fuel == 0 || x.pc.Ended? then s
    else if x.pc.Commit? then Overlay(s, x)
    else Finished(Moved(x, s, patient), s, patient, fuel - 1)
  }

  lemma FundingAlone(h: HandlerId, c: Case, t: TaskId, pc: Pc, i: Input, patient: bool)
    requires pc.FundEscrow? && c.escrow.Some?
    ensures var k := KindOf(At(t, pc, [], false)).value;
            Finished(Starting(k), StatusOf(c), patient, 5) == StatusOf(Advance(h, c, pc, i).rows)
  {
    hide Finished;
    var x0, s := Starting(KindOf(At(t, pc, [], false)).value), StatusOf(c);
    var x1 := Moved(x0, s, patient);
    var x2 := Moved(x1, s, patient);
    Unrolled(x0, x1, x2, Moved(x2, s, patient), s, patient);
  }

  lemma CancelAlone(h: HandlerId, c: Case, t: TaskId, pc: Pc, i: Input, patient: bool)
    requires pc.CancelFunds? && pc.mode == c.task.mode && (c.escrow.Some? ==> c.task.mode == EscrowMode)
    ensures var k := KindOf(At(t, pc, [], false)).value;
            Finished(Starting(k), StatusOf(c), patient, 5) == StatusOf(Advance(h, c, pc, i).rows)
  {
    hide Finished;
    var x0, s := Starting(KindOf(At(t, pc, [], false)).value), StatusOf(c);
    var x1 := Moved(x0, s, patient);
    var x2 := Moved(x1, s, patient);
    Unrolled(x0, x1, x2, Moved(x2, s, patient), s, patient);
  }

  lemma ReleaseAlone(h: HandlerId, c: Case, t: TaskId, pc: Pc, i: Input, patient: bool)
    requires pc.ReleaseFunds? && pc.worker.Some?
    ensures var k := KindOf(At(t, pc, [], false)).value;
            Finished(Starting(k), StatusOf(c), patient, 5) == StatusOf(Advance(h, c, pc, i).rows)
  {
    hide Finished, Moved, Wants;
    var x0, s := Starting(KindOf(At(t, pc, [], false)).value), StatusOf(c);
    var x1, x2, x3 := ReleaseMoves(x0, s, patient);
    Unrolled(x0, x1, x2, x3, s, patient);
  }

  lemma ReleaseMoves(x0: Txn, s: Status, patient: bool) returns (x1: Txn, x2: Txn, x3: Txn)
    requires x0 == Starting(x0.kind) && x0.kind.ReleaseOf?
    ensures x1 == Moved(x0, s, patient) && x2 == Moved(x1, s, patient) && x3 == Moved(x2, s, patient)
    ensures !x1.pc.Ended? && !x2.pc.Ended? && !x2.pc.Commit?
    ensures Overlay(s, x3) == if s.escrow == Some(Held) then s.(escrow := Some(Released)) else s
  {
    var held := s.escrow == Some(Held);
    x1 := x0.(pc := Second, newEscrow := if held then Some(Released) else None);
    x2 := x1.(pc := Third, profile := held);
    x3 := x2.(pc := Commit, newTask := if x0.kind.confirmed then Some(s.task) else None);
  }

  lemma DisputeAlone(h: HandlerId, c: Case, t: TaskId, pc: Pc, i: Input, patient: bool)
    requires pc.DisputeFunds? && pc.mode == c.task.mode && (c.escrow.Some? <==> c.task.mode == EscrowMode)
    ensures var k := KindOf(At(t, pc, [], false)).value;
            Finished(Starting(k), StatusOf(c), patient, 5) == StatusOf(Advance(h, c, pc, i).rows)
  {
    hide Finished;
    var x0, s := Starting(KindOf(At(t, pc, [], false)).value), StatusOf(c);
    var x1 := Moved(x0, s, patient);
    var x2 := Moved(x1, s, patient);
    Unrolled(x0, x1, x2, Moved(x2, s, patient), s, patient);
  }

  lemma ResolutionAlone(h: HandlerId, c: Case, t: TaskId, pc: Pc, i: Input, patient: bool)
    requires pc.SettleDispute? && c.dispute.Some? && pc.sawEscrow == c.escrow.Some?
    ensures var k := KindOf(At(t, pc, [], false)).value;
            Finished(Starting(k), StatusOf(c), patient, 5) == StatusOf(Advance(h, c, pc, i).rows)
  {
    hide Finished;
    var x0, s := Starting(KindOf(At(t, pc, [], false)).value), StatusOf(c);
    var x1 := Moved(x0, s, patient);
    var x2 := Moved(x1, s, patient);
    Unrolled(x0, x1, x2, Moved(x2, s, patient), s, patient);
  }

  /** Alone, four statements and a commit at most do to the rows what the transaction does to
      them as one step of its handler. */
  lemma AloneIsTransaction(h: HandlerId, c: Case, t: TaskId, pc: Pc, i: Input, patient: bool)
    requires CaseInv(c) && PcInv(h, c, pc, i.now) && KindOf(At(t, pc, [], false)).Some?
    ensures var k := KindOf(At(t, pc, [], false)).value;
            Finished(Starting(k), StatusOf(c), patient, 5) == StatusOf(Advance(h, c, pc, i).rows)
  {
    hide Advance, Finished, PaymentInv, HeldInv, ReleaseInv, RefundInv;
    if pc.FundEscrow? {
      FundingAlone(h, c, t, pc, i, patient);
    } else if pc.CancelFunds? {
      CancelAlone(h, c, t, pc, i, patient);
    } else if pc.ReleaseFunds? {
      ReleaseAlone(h, c, t, pc, i, patient);
    } else if pc.DisputeFunds? {
      DisputeAlone(h, c, t, pc, i, patient);
    } else {
      ResolutionAlone(h, c, t, pc, i, patient);
    }
  }

  lemma Unrolled(x0: Txn, x1: Txn, x2: Txn, x3: Txn, s: Status, patient: bool)
    requires x0.pc.First? && x1 == Moved(x0, s, patient) && x2 == Moved(x1, s, patient) && x3 == Moved(x2, s, patient)
    ensures Finished(x0, s, patient, 5) ==
            if x1.pc.Ended? then s
            else if x2.pc.Ended? then s
            else if x2.pc.Commit? then Overlay(s, x2) else Overlay(s, x3)
  {
    hide Wants, TaskValue, EscrowValue, Overlay, Moved;
    PointsAdvance(x0, s, patient);
    PointsAdvance(x1, s, patient);
    PointsAdvance(x2, s, patient);
    assert Finished(x3, s, patient, 2) == if x3.pc.Ended? then s else Overlay(s, x3);
    assert Finished(x2, s, patient, 3) ==
      if x2.pc.Ended? then s else if x2.pc.Commit? then Overlay(s, x2) else Finished(x3, s, patient, 2);
    assert Finished(x1, s, patient, 4) == if x1.pc.Ended? then s else Finished(x2, s, patient, 3);
  }

  lemma PointsAdvance(x: Txn, s: Status, patient: bool)
    ensures Moved(x, s, patient).kind == x.kind
    ensures var pc := Moved(x, s, patient).pc;
            match x.pc
            case First => pc.Second? || pc.Ended?
            case Second => pc.Third? || pc.Commit? || pc.Ended?
            case Third => pc.Commit?
            case _ => pc.Ended?
  {
  }

  /** The transactions of `s` are those that the handlers `hs` of `w` are about to start. */
  ghost predicate StartsFrom(s: State, w: World, hs: seq<HandlerId>) {
    && |s.db| == |w.cases| && |s.txns| == |hs|
    && (forall t :: 0 <= t < |s.db| ==> s.db[t] == StatusOf(w.cases[t]))
    && (forall i, j :: 0 <= i < j < |hs| ==> hs[i] != hs[j])
    && (forall i :: 0 <= i < |hs| ==>
          hs[i] in w.handlers && KindOf(w.handlers[hs[i]]) == Some(s.txns[i].kind))
  }

  predicate CrossedAs(s: State, n: nat, m: nat, a: Shape, b: Shape) {
    Crossed(s, n, m) && ShapeOf(s.txns[n].kind) == a && ShapeOf(s.txns[m].kind) == b
  }

  ghost predicate SomeCrossed(s: State, a: Shape, b: Shape) {
    exists n: nat, m: nat :: CrossedAs(s, n, m, a, b)
  }

  ghost predicate CrossesIn(w: World, hs: seq<HandlerId>, ss: seq<State>, a: Shape, b: Shape, patient: bool) {
    && Reaches(w) && LockOrder.IsRun(ss) && StartsFrom(ss[0], w, hs) && ss[0].patient == patient
    && SomeCrossed(ss[|ss| - 1], a, b)
  }

  /** In some reachable world a transaction of shape `a` can come to wait for one of shape
      `b` and the reverse. */
  ghost predicate CanCross(a: Shape, b: Shape, patient: bool) {
    exists w, hs, ss :: CrossesIn(w, hs, ss, a, b, patient)
  }

  // --- No other pair ---

  lemma CaseIsPlausible(c: Case)
    requires CaseInv(c)
    ensures Plausible(StatusOf(c))
  {
    hide PaymentInv, ReleaseInv, RefundInv;
  }

  lemma WorldIsPlausible(s: State, w: World, hs: seq<HandlerId>)
    requires Reaches(w) && StartsFrom(s, w, hs)
    ensures PlausibleRows(s)
  {
    hide Reaches, CaseInv, Plausible, HandlersInv, CountersInv;
    ReachesInv(w);
    forall t | 0 <= t < |s.db| ensures Plausible(s.db[t]) {
      CaseIsPlausible(w.cases[t]);
    }
  }

  lemma OnlyThese(w: World, hs: seq<HandlerId>, ss: seq<State>, a: Shape, b: Shape, patient: bool)
    requires CrossesIn(w, hs, ss, a, b, patient)
    ensures Crossing(a, b, patient)
  {
    hide Reaches, StartsFrom, Crossed;
    WorldIsPlausible(ss[0], w, hs);
    var n: nat, m: nat :| CrossedAs(ss[|ss| - 1], n, m, a, b);
    InCrossed(ss[|ss| - 1], n, m);
    CrossedKinds(ss, |ss| - 1, n, m);
  }

  // --- And each of these ---

  ghost function Together(s: Status, x: Txn, y: Txn, patient: bool): State {
    State([s], [x, y], patient)
  }

  predicate Free(x: Txn, y: Txn, s: Status, patient: bool) {
    && x.kind.t == 0 && !x.pc.Ended? && !x.pc.Commit?
    && (Wants(x, s, patient).Some? ==> !Holds(y, Wants(x, s, patient).value))
  }

  lemma FirstMoves(s: Status, x: Txn, y: Txn, patient: bool, z: Txn)
    requires Free(x, y, s, patient) && z == Moved(x, s, patient)
    ensures Next(Together(s, x, y, patient), Together(s, z, y, patient))
  {
    hide Wants, Holds, Moved;
    var u := Together(s, x, y, patient);
    assert Ready(u, 0) && Step(u, 0) == Together(s, z, y, patient);
  }

  lemma SecondMoves(s: Status, x: Txn, y: Txn, patient: bool, z: Txn)
    requires Free(y, x, s, patient) && z == Moved(y, s, patient)
    ensures Next(Together(s, x, y, patient), Together(s, x, z, patient))
  {
    hide Wants, Holds, Moved;
    var u := Together(s, x, y, patient);
    assert Ready(u, 1) && Step(u, 1) == Together(s, x, z, patient);
  }

  /** A run of two transactions to the point where they are crossed. */
  ghost predicate Deadlocks(ss: seq<State>, s: Status, x: Kind, y: Kind, patient: bool) {
    && LockOrder.IsRun(ss) && ss[0] == Together(s, Starting(x), Starting(y), patient)
    && CrossedAs(ss[|ss| - 1], 0, 1, ShapeOf(x), ShapeOf(y))
  }

  lemma ConfirmAndDisputeDeadlock(patient: bool) returns (ss: seq<State>)
    ensures Deadlocks(ss, Status(Completed, Some(Held), false), ReleaseOf(0, 2, true), DisputeOf(0), patient)
  {
    hide Next;
    var s := Status(Completed, Some(Held), false);
    var x0, y0 := Starting(ReleaseOf(0, 2, true)), Starting(DisputeOf(0));
    var x1, y1 := x0.(pc := Second, newEscrow := Some(Released)), y0.(pc := Second, newTask := Some(TaskDisputed));
    var x2, y2 := x1.(pc := Third, profile := true), y1.(pc := Third, dispute := true);
    FirstMoves(s, x0, y0, patient, x1);
    SecondMoves(s, x1, y0, patient, y1);
    SecondMoves(s, x1, y1, patient, y2);
    FirstMoves(s, x1, y2, patient, x2);
    ss := [Together(s, x0, y0, patient), Together(s, x1, y0, patient), Together(s, x1, y1, patient),
           Together(s, x1, y2, patient), Together(s, x2, y2, patient)];
  }

  lemma ConfirmAndCancelDeadlock(patient: bool) returns (ss: seq<State>)
    ensures Deadlocks(ss, Status(InProgress, Some(Held), false), ReleaseOf(0, 2, true), CancelOf(0), patient)
  {
    hide Next;
    var s := Status(InProgress, Some(Held), false);
    var x0, y0 := Starting(ReleaseOf(0, 2, true)), Starting(CancelOf(0));
    var x1, y1 := x0.(pc := Second, newEscrow := Some(Released)), y0.(pc := Second, newTask := Some(Cancelled));
    var x2 := x1.(pc := Third, profile := true);
    FirstMoves(s, x0, y0, patient, x1);
    SecondMoves(s, x1, y0, patient, y1);
    FirstMoves(s, x1, y1, patient, x2);
    ss := [Together(s, x0, y0, patient), Together(s, x1, y0, patient), Together(s, x1, y1, patient),
           Together(s, x2, y1, patient)];
  }

  lemma ResolutionAndDisputeDeadlock(refundPoster: bool) returns (ss: seq<State>)
    ensures var s := Status(TaskDisputed, Some(EscrowDisputed), true);
            Deadlocks(ss, s, ResolveOf(0, refundPoster), DisputeOf(0), true)
  {
    hide Next;
    var s := Status(TaskDisputed, Some(EscrowDisputed), true);
    var x0, y0 := Starting(ResolveOf(0, refundPoster)), Starting(DisputeOf(0));
    var x1, y1 := x0.(pc := Second, dispute := true), y0.(pc := Second, newTask := Some(TaskDisputed));
    var x2 := x1.(pc := Third, newEscrow := Some(if refundPoster then Refunded else Released));
    FirstMoves(s, x0, y0, true, x1);
    SecondMoves(s, x1, y0, true, y1);
    FirstMoves(s, x1, y1, true, x2);
    ss := [Together(s, x0, y0, true), Together(s, x1, y0, true), Together(s, x1, y1, true), Together(s, x2, y1, true)];
  }

  /** Such a run starts from a reachable world when its rows and two handlers do. */
  lemma Standing(w: World, c: Case, p: Pc, q: Pc, ss: seq<State>, x: Kind, y: Kind, patient: bool)
    requires OneTask(w, c, map[1 := p, 2 := q]) && Deadlocks(ss, StatusOf(c), x, y, patient)
    requires KindOf(At(0, p, [], false)) == Some(x) && KindOf(At(0, q, [], false)) == Some(y)
    ensures CanCross(ShapeOf(x), ShapeOf(y), patient)
  {
    hide Reaches, LockOrder.IsRun, CrossedAs, StatusOf, ShapeOf, KindOf;
    assert LockOrder.IsRun(ss) && |ss| > 0 by { NotEmpty(ss); }
    assert StartsFrom(ss[0], w, [1, 2]);
    assert CrossesIn(w, [1, 2], ss, ShapeOf(x), ShapeOf(y), patient);
  }

  lemma NotEmpty(ss: seq<State>)
    requires LockOrder.IsRun(ss)
    ensures |ss| > 0
  {
  }

  lemma Each(a: Shape, b: Shape, patient: bool)
    requires Crossing(a, b, patient)
    ensures CanCross(a, b, patient)
  {
    hide OneTask, Deadlocks, CanCross;
    if b.ACancel? {
      var w, c := ConfirmMeetsCancel();
      var ss := ConfirmAndCancelDeadlock(patient);
      Standing(w, c, ReleaseFunds(Some(2), ByConfirm(1)), CancelFunds(EscrowMode), ss,
               ReleaseOf(0, 2, true), CancelOf(0), patient);
    } else if a.AResolution? {
      var w, c := ResolutionMeetsDispute(a.refundPoster);
      var ss := ResolutionAndDisputeDeadlock(a.refundPoster);
      Standing(w, c, SettleDispute(true, a.refundPoster), DisputeFunds(2, EscrowMode), ss,
               ResolveOf(0, a.refundPoster), DisputeOf(0), true);
    } else {
      var w, c := ConfirmMeetsDispute();
      var ss := ConfirmAndDisputeDeadlock(patient);
      Standing(w, c, ReleaseFunds(Some(2), ByConfirm(1)), DisputeFunds(1, EscrowMode), ss,
               ReleaseOf(0, 2, true), DisputeOf(0), patient);
    }
  }

  /** Two transactions that handlers of a reachable world are about to start can come to
      wait for each other exactly when they are a confirmed release and a cancel or a
      dispute, or, when inserts wait, the resolution of a dispute and a second dispute. */
  lemma CanCrossExactly(a: Shape, b: Shape, patient: bool)
    ensures CanCross(a, b, patient) <==> Crossing(a, b, patient)
  {
    hide CrossesIn, Crossing;
    if CanCross(a, b, patient) {
      var w, hs, ss :| CrossesIn(w, hs, ss, a, b, patient);
      OnlyThese(w, hs, ss, a, b, patient);
    } else if Crossing(a, b, patient) {
      Each(a, b, patient);
    }
  }
}
