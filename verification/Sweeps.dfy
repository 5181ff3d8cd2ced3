/** Facts about creations and scheduled jobs that run alone. */
module Sweeps {
  import opened Wrappers
  import opened Rows
  import opened Handlers
  import opened Invariants
  import opened World
  import opened Serial
  import opened Requests
  import Fees
  import History
  import Orders

  /** A creation that runs alone: the task row, then its money row. */
  lemma CreateReaches(w: World, uuid: string, poster: UserId, mode: PaymentMode, tier: Tier,
                      split: Fees.Split, v: World)
    requires Reaches(w) && w.handlers == map[] && AllAtomic(w.cases)
    requires Orders.IsUuid(uuid) && forall t :: 0 <= t < |w.cases| ==> w.cases[t].task.uuid != uuid
    requires Fees.IsSplit(split)
    requires v == w.(cases := w.cases + [InsertMoneyRow(NewCase(uuid, poster, split.budget, mode, tier), split)])
    ensures Reaches(v) && AllAtomic(v.cases)
  {
    hide Reaches;
    var l := Create(0, uuid, poster, mode, tier, split);
    Extend(w, l);
    var u := Apply(w, l);
    assert u.handlers == map[0 := At(|w.cases|, InsertMoney(split), [], false)];
    var i := Input(w.now, false, false, None);
    var c := NewCase(uuid, poster, split.budget, mode, tier);
    assert u.cases[|w.cases| := InsertMoneyRow(c, split)] == v.cases;
    SoloReaches(u, |w.cases|, 0, InsertMoney(split), [], false, i, v);
  }

  /** An open task of a reachable world is not assigned. */
  lemma OpenHasNoDoer(w: World, t: TaskId)
    requires Reaches(w) && t < |w.cases|
    ensures w.cases[t].task.status == Open ==> w.cases[t].task.doerId.None?
  {
    hide Reaches, FundingInv, PaymentInv, HeldInv, ReleaseInv, RefundInv;
    CasesOf(w);
  }

  predicate Identified(c: Case) {
    c.escrow.Some? && c.escrow.value.paymentId.Some?
  }

  /** A payment id belongs to a captured payment, and a refund to one that has its id. */
  predicate RefundsAreIdentified(c: Case) {
    && (c.refund.Some? ==> Identified(c))
    && (Identified(c) ==> c.escrow.value.status != Pending)
  }

  /** What a method needs to know of the rows it finds. */
  lemma CaseOf(w: World, t: TaskId)
    requires Reaches(w) && t < |w.cases|
    ensures var c := w.cases[t];
            && RefundsAreIdentified(c)
            && (HasDoer(c.task.status) && c.task.mode == EscrowMode ==> c.escrow.Some?)
  {
    hide Reaches, HeldInv, ReleaseInv;
    CasesOf(w);
  }

  /** A completed task has a doer, and the doer a profile. */
  lemma CompletedHasDoer(w: World, t: TaskId)
    requires Reaches(w) && t < |w.cases| && w.cases[t].task.status == Completed
    ensures w.cases[t].task.doerId.Some? && w.cases[t].task.doerId.value in w.profiles
  {
    hide Reaches, FundingInv, PaymentInv, HeldInv, ReleaseInv, RefundInv, HandlersInv, CountersInv;
    ReachesInv(w);
    assert CaseInv(w.cases[t]);
  }

  /** A posting fee is the flat one. */
  lemma FeeAmount(w: World, t: TaskId)
    requires Reaches(w) && t < |w.cases|
    ensures w.cases[t].fee.Some? ==> w.cases[t].fee.value.amount == POSTING_FEE
  {
    hide Reaches, FundingInv, HeldInv, ReleaseInv, RefundInv, AssignmentInv;
    CasesOf(w);
  }

  /** An order id leads to at most one row of a reachable world. */
  lemma OrdersAreUnique(w: World, order: string)
    requires Reaches(w)
    ensures forall t, u :: OwnsEscrowOrder(w, t, order) && OwnsEscrowOrder(w, u, order) ==> t == u
    ensures forall t, u :: OwnsFeeOrder(w, t, order) && OwnsFeeOrder(w, u, order) ==> t == u
    ensures forall t, u :: !(OwnsEscrowOrder(w, t, order) && OwnsFeeOrder(w, u, order))
  {
    var ws, ls :| IsRun(ws, ls) && ws[|ls|] == w;
    forall t: TaskId, u: TaskId
      ensures OwnsEscrowOrder(w, t, order) && OwnsEscrowOrder(w, u, order) ==> t == u
      ensures OwnsFeeOrder(w, t, order) && OwnsFeeOrder(w, u, order) ==> t == u
      ensures !(OwnsEscrowOrder(w, t, order) && OwnsFeeOrder(w, u, order))
    {
      hide IsRun, OwnsEscrowOrder, OwnsFeeOrder;
      History.RoutingIsUnambiguous(ws, ls, |ls|, order, t, u);
    }
  }

  lemma OrdersBelong(w: World, order: string)
    requires Reaches(w)
    ensures forall t: TaskId :: OwnsEscrowOrder(w, t, order) <==> t < |w.cases| && HasOrder(w.cases[t], order)
    ensures forall t: TaskId :: OwnsFeeOrder(w, t, order) <==> t < |w.cases| && HasFeeOrder(w.cases[t], order)
    ensures forall t, u :: 0 <= t < |w.cases| && 0 <= u < |w.cases| && HasOrder(w.cases[t], order) ==>
              !HasFeeOrder(w.cases[u], order) && (HasOrder(w.cases[u], order) ==> t == u)
    ensures forall t, u :: 0 <= t < |w.cases| && 0 <= u < |w.cases| && HasFeeOrder(w.cases[t], order) ==>
              (HasFeeOrder(w.cases[u], order) ==> t == u)
  {
    hide Reaches;
    OrdersAreUnique(w, order);
    forall t: TaskId
      ensures OwnsEscrowOrder(w, t, order) <==> t < |w.cases| && HasOrder(w.cases[t], order)
      ensures OwnsFeeOrder(w, t, order) <==> t < |w.cases| && HasFeeOrder(w.cases[t], order)
    {
    }
    hide OwnsEscrowOrder, OwnsFeeOrder, HasOrder, HasFeeOrder;
  }

  /** An atomic history never pays and refunds the same escrow. */
  lemma NeverBoth(w: World, t: TaskId)
    requires Reaches(w) && AllAtomic(w.cases) && t < |w.cases|
    ensures !(w.cases[t].payout.Some? && w.cases[t].refund.Some?)
  {
    hide Reaches, FundingInv, PaymentInv, HeldInv, RefundInv, AssignmentInv;
    CasesOf(w);
  }

  /** A release credits its doer once, in its own transaction. */
  lemma CreditedOnce(h: HandlerId, profiles: map<UserId, Profile>, c: Case, worker: Option<UserId>, cause: Cause,
                     i: Input)
    ensures SoloProfiles(h, profiles, c, ReleaseFunds(worker, cause), i) ==
            Credit(profiles, c, ReleaseFunds(worker, cause))
  {
    var pc := ReleaseFunds(worker, cause);
    var o := Advance(h, c, pc, i);
    if o.next.Some? {
      NoCredit(h, Credit(profiles, c, pc), o.rows, o.next.value, i);
    }
  }

  lemma CreditedByConfirm(h: HandlerId, profiles: map<UserId, Profile>, c: Case, user: UserId, i: Input)
    requires IsHeld(c)
    ensures SoloProfiles(h, profiles, c, CheckHeld(user, c.task.doerId), i) ==
            SoloProfiles(h, profiles, c, ReleaseFunds(c.task.doerId, ByConfirm(user)), i)
  {
  }

  /** One job more for a user. */
  function Counted(profiles: map<UserId, Profile>, user: UserId): map<UserId, Profile>
    requires user in profiles
  {
    profiles[user := profiles[user].(jobs := profiles[user].jobs + 1)]
  }

  /** The same profiles but for the job counters. */
  predicate SameMarks(a: map<UserId, Profile>, b: map<UserId, Profile>) {
    && a.Keys == b.Keys
    && forall user :: user in a ==> a[user].approved == b[user].approved && a[user].tier == b[user].tier
  }

  lemma NoMarksYet(a: map<UserId, Profile>)
    ensures SameMarks(a, a)
  {
  }

  lemma MarksAre(a: map<UserId, Profile>, b: map<UserId, Profile>)
    requires SameMarks(a, b)
    ensures a.Keys == b.Keys
    ensures forall user :: user in b ==>
              user in a && b[user].approved == a[user].approved && b[user].tier == a[user].tier
  {
  }

  lemma CreditMarks(a: map<UserId, Profile>, b: map<UserId, Profile>, c: Case, pc: Pc)
    requires SameMarks(a, b)
    ensures SameMarks(a, Credit(b, c, pc))
  {
  }

  /** A confirmation that pays counts one job for the doer, and no other does. */
  lemma ConfirmCounts(h: HandlerId, profiles: map<UserId, Profile>, c: Case, user: UserId, i: Input)
    requires c.task.posterId == user && c.task.status == Completed
    requires c.task.doerId.Some? && c.task.doerId.value in profiles
    ensures ServeProfiles(h, profiles, c, Confirm(user), i) ==
            if c.task.mode == EscrowMode && EscrowIs(c, Held) then Counted(profiles, c.task.doerId.value) else profiles
    ensures c.task.mode == EscrowMode && EscrowIs(c, Held) ==>
              SoloProfiles(h, profiles, c, ReleaseFunds(c.task.doerId, ByConfirm(user)), i) ==
              Counted(profiles, c.task.doerId.value)
  {
    hide SoloProfiles;
    if c.task.mode == CashMode {
      NoCredit(h, profiles, c, MarkConfirmed, i);
    } else if EscrowIs(c, Held) {
      CreditedByConfirm(h, profiles, c, user, i);
      CreditedOnce(h, profiles, c, c.task.doerId, ByConfirm(user), i);
    } else {
      NotHeldEnds(h, profiles, c, user, i);
    }
  }

  lemma NotHeldEnds(h: HandlerId, profiles: map<UserId, Profile>, c: Case, user: UserId, i: Input)
    requires !IsHeld(c)
    ensures SoloProfiles(h, profiles, c, CheckHeld(user, c.task.doerId), i) == profiles
  {
  }

  // --- Notifications ---

  /** A solo run that starts well, on the rows of one task. */
  lemma SoloValid(w: World, t: TaskId, pc: Pc, rest: seq<Job>, more: bool, i: Input, v: World)
    requires Reaches(w) && AllAtomic(w.cases) && t < |w.cases| && w.handlers == map[0 := At(t, pc, rest, more)]
    requires i.now == w.now && !pc.CheckProfile? && !pc.CheckHeld?
    requires AtomicPc(0, w.cases[t], pc)
    requires v == World(w.cases[t := Solo(0, w.cases[t], pc, i)], Rest(0, rest, more),
                        if pc.ReleaseFunds? then Credit(w.profiles, w.cases[t], pc) else w.profiles, w.now)
    ensures Reaches(v) && AllAtomic(v.cases)
  {
    hide Reaches, AtomicCase, CaseInv, PcInv, CasesInv, CountersInv, Solo, SoloProfiles, AtomicPc;
    ReachesInv(w);
    CasesOf(w);
    assert HandlerInv(w, 0, w.handlers[0]);
    SoloAtomic(0, w.cases[t], pc, i);
    if pc.ReleaseFunds? {
      CreditedOnce(0, w.profiles, w.cases[t], pc.worker, pc.cause, i);
    } else {
      NoCredit(0, w.profiles, w.cases[t], pc, i);
    }
    SoloReaches(w, t, 0, pc, rest, more, i, v);
  }

  lemma NotifyReaches(w: World, t: TaskId, order: string, payment: Option<PaymentId>, i: Input,
                        v: World)
    requires Reaches(w) && w.handlers == map[] && AllAtomic(w.cases) && OwnsEscrowOrder(w, t, order) && i.now == w.now
    requires v == w.(cases := w.cases[t := FundedAlone(w.cases[t], payment, i)])
    ensures Reaches(v) && AllAtomic(v.cases)
  {
    hide Reaches, AtomicCase, Solo;
    var l := Notify(0, order, payment, Some(t));
    Extend(w, l);
    var u := Apply(w, l);
    var next := BeginFunding(w.cases[t].escrow.value, payment);
    if next.Some? {
      assert u.handlers == map[0 := At(t, next.value, [], false)];
      SoloValid(u, t, next.value, [], false, i, v);
    } else {
      assert u.handlers == map[] && v.cases == w.cases;
    }
  }

  lemma NotifyFeeReaches(w: World, owner: Option<TaskId>, order: string, payment: Option<PaymentId>, i: Input,
                        v: World)
    requires Reaches(w) && w.handlers == map[] && AllAtomic(w.cases) && i.now == w.now
    requires forall t :: 0 <= t < |w.cases| ==> !OwnsEscrowOrder(w, t, order)
    requires match owner
             case Some(t) =>
               OwnsFeeOrder(w, t, order) && v == w.(cases := w.cases[t := FeeFundedAlone(w.cases[t], payment, i)])
             case None => v == w && forall t :: 0 <= t < |w.cases| ==> !OwnsFeeOrder(w, t, order)
    ensures Reaches(v) && AllAtomic(v.cases)
  {
    hide Reaches, AtomicCase, Solo;
    Extend(w, Notify(0, order, payment, None));
    var x := Apply(w, Notify(0, order, payment, None));
    assert x.handlers == map[0 := FindFee(order, payment)];
    assert forall t :: OwnsFeeOrder(x, t, order) == OwnsFeeOrder(w, t, order);
    var l := NotifyFee(0, owner);
    Extend(x, l);
    var u := Apply(x, l);
    if owner.Some? {
      var t := owner.value;
      var next := BeginFeeFunding(w.cases[t].fee.value, payment);
      if next.Some? {
        assert u.handlers == map[0 := At(t, next.value, [], false)];
        SoloValid(u, t, next.value, [], false, i, v);
      } else {
        assert u.handlers == map[] && v.cases == w.cases;
      }
    } else {
      assert u.handlers == map[];
    }
  }

  // --- Jobs ---

  /** Starting and finishing one item of a job's list. */
  lemma ItemReaches(w: World, t: TaskId, rest: seq<Job>, more: bool, i: Input, v: World)
    requires Reaches(w) && AllAtomic(w.cases) && i.now == w.now
    requires rest != [] && w.handlers == map[0 := Between(rest, more)] && rest[0].t == t && t < |w.cases|
    requires AtomicPc(0, w.cases[t], FirstPoint(rest[0]))
    requires v == World(w.cases[t := Solo(0, w.cases[t], FirstPoint(rest[0]), i)], Rest(0, rest[1..], more),
                        if rest[0].ReleaseJob? then Credit(w.profiles, w.cases[t], FirstPoint(rest[0])) else w.profiles,
                        w.now)
    ensures Reaches(v) && AllAtomic(v.cases)
  {
    hide Reaches, AtomicCase, AtomicPc, Solo;
    Extend(w, NextJob(0));
    var u := Apply(w, NextJob(0));
    assert u.handlers == map[0 := At(t, FirstPoint(rest[0]), rest[1..], more)];
    SoloValid(u, t, FirstPoint(rest[0]), rest[1..], more, i, v);
  }

  /** The tables after the first `n` items of a list of refunds. */
  ghost predicate SweptTo(before: seq<Case>, after: seq<Case>, picks: seq<TaskId>, n: nat, inputs: TaskId -> Input)
    requires n <= |picks|
  {
    && |after| == |before|
    && forall t :: 0 <= t < |before| ==>
         after[t] == if t in picks[..n] then Solo(0, before[t], StartRefund(AdminReason), inputs(t)) else before[t]
  }

  /** The inputs of a sweep at `now`: one configuration, and an answer for each refund. */
  function SweepInput(now: Time, configured: bool, accepts: TaskId -> bool): TaskId -> Input {
    (t: TaskId) => Input(now, configured, accepts(t), None)
  }

  /** The next item of a list of refunds has not been touched by the items before it. */
  lemma SweptSkips(before: seq<Case>, cs: seq<Case>, picks: seq<TaskId>, n: nat, inputs: TaskId -> Input)
    requires Answers(picks, Awaiting(before), Some(SWEEP_LIMIT)) && n < |picks| && SweptTo(before, cs, picks, n, inputs)
    ensures picks[n] < |cs| && cs[picks[n]] == before[picks[n]] && AwaitsRefund(cs[picks[n]])
  {
    hide Solo, AwaitsRefund;
    assert picks[n] !in picks[..n];
  }

  /** A whole sweep seeks the refund of what it picked, and of nothing else. */
  lemma SweptSought(w: World, after: seq<Case>, picks: seq<TaskId>, inputs: TaskId -> Input)
    requires Reaches(w) && SweptTo(w.cases, after, picks, |picks|, inputs)
    ensures |after| == |w.cases|
    ensures forall t :: 0 <= t < |w.cases| ==>
              if t in picks then RefundSought(w.cases[t], after[t], AdminReason, inputs(t)) else after[t] == w.cases[t]
  {
    hide Reaches, Solo, CaseInv, RefundSought;
    CasesOf(w);
    assert picks[..|picks|] == picks;
    forall t | 0 <= t < |w.cases| && t in picks ensures RefundSought(w.cases[t], after[t], AdminReason, inputs(t)) {
      SoloSeeksRefund(0, w.cases[t], AdminReason, inputs(t));
    }
  }

  lemma SweptNext(before: seq<Case>, cs: seq<Case>, ds: seq<Case>, picks: seq<TaskId>, n: nat, inputs: TaskId -> Input)
    requires n < |picks| && SweptTo(before, cs, picks, n, inputs)
    requires picks[n] < |cs| && cs[picks[n]] == before[picks[n]]
    requires ds == cs[picks[n] := Solo(0, cs[picks[n]], StartRefund(AdminReason), inputs(picks[n]))]
    ensures SweptTo(before, ds, picks, n + 1, inputs)
  {
    hide Solo;
    assert picks[..n + 1] == picks[..n] + [picks[n]];
  }

  predicate IsDone(cs: seq<Case>, t: TaskId) {
    t < |cs| && cs[t].refund.Some? && cs[t].refund.value.status == RefundDone
  }

  /** How many of the picked refunds are completed. */
  function CountDone(cs: seq<Case>, picks: seq<TaskId>): nat {
    if picks == [] then 0
    else CountDone(cs, picks[..|picks| - 1]) + (if IsDone(cs, picks[|picks| - 1]) then 1 else 0)
  }

  lemma {:induction false} CountDoneNext(cs: seq<Case>, ds: seq<Case>, picks: seq<TaskId>, t: TaskId)
    requires t !in picks && |cs| == |ds| && forall u :: 0 <= u < |cs| && u != t ==> ds[u] == cs[u]
    ensures CountDone(ds, picks) == CountDone(cs, picks)
    ensures CountDone(ds, picks + [t]) == CountDone(cs, picks) + (if IsDone(ds, t) then 1 else 0)
  {
    assert (picks + [t])[..|picks|] == picks;
    if picks == [] {
    } else {
      CountDoneNext(cs, ds, picks[..|picks| - 1], t);
    }
  }

  /** How many of the picked escrows have no payment id. */
  function CountLost(cs: seq<Case>, picks: seq<TaskId>): nat {
    if picks == [] then 0
    else CountLost(cs, picks[..|picks| - 1]) + (if picks[|picks| - 1] in Lost(cs) then 1 else 0)
  }

  /** The escrows that await a refund without a payment id. */
  function Lost(cs: seq<Case>): set<TaskId> {
    set t: nat | t < |cs| && EscrowIs(cs[t], RefundPending) && cs[t].escrow.value.paymentId.None?
  }

  /** The tasks whose escrow is REFUND_PENDING. */
  function PendingRefunds(cs: seq<Case>): set<TaskId> {
    set t: nat | t < |cs| && EscrowIs(cs[t], RefundPending)
  }

  /** The first query of a sweep looks for exactly these, a hundred at a time. */
  lemma PendingAreSwept(cs: seq<Case>)
    ensures Awaiting(cs) == PendingRefunds(cs) && Lost(cs) <= PendingRefunds(cs) && SWEEP_LIMIT == 100
  {
  }

  lemma {:induction false} LostOrDone(cs: seq<Case>, ds: seq<Case>, picks: seq<TaskId>)
    requires forall t :: t in picks ==> (IsDone(ds, t) <==> t !in Lost(cs))
    ensures CountDone(ds, picks) + CountLost(cs, picks) == |picks|
  {
    hide Lost, IsDone;
    if picks == [] {
    } else {
      LostOrDone(cs, ds, picks[..|picks| - 1]);
    }
  }

  lemma {:induction false} NoneLost(cs: seq<Case>, picks: seq<TaskId>)
    ensures CountLost(cs, picks) == 0 <==> forall t :: t in picks ==> t !in Lost(cs)
  {
    hide Lost;
    if picks == [] {
    } else {
      var last := |picks| - 1;
      NoneLost(cs, picks[..last]);
      assert picks == picks[..last] + [picks[last]];
    }
  }

  lemma {:induction false} CountDoneIs(cs: seq<Case>, picks: seq<TaskId>)
    requires forall i, j :: 0 <= i < j < |picks| ==> picks[i] != picks[j]
    ensures CountDone(cs, picks) == |DoneOf(cs, picks)|
  {
    hide IsDone;
    if picks == [] {
    } else {
      var last := |picks| - 1;
      CountDoneIs(cs, picks[..last]);
      assert picks[last] !in picks[..last];
      assert DoneOf(cs, picks) == DoneOf(cs, picks[..last]) + (if IsDone(cs, picks[last]) then {picks[last]} else {});
    }
  }

  function DoneOf(cs: seq<Case>, picks: seq<TaskId>): set<TaskId> {
    set t | t in picks && IsDone(cs, t)
  }

  /** The world in which a sweep is about to start item `n` of its first list. */
  function SweepWorld(cs: seq<Case>, picks: seq<TaskId>, n: nat, profiles: map<UserId, Profile>, now: Time): World
    requires n <= |picks|
  {
    World(cs, map[0 := Between(RefundJobs(picks)[n..], true)], profiles, now)
  }

  /** One item of a sweep, served alone. */
  lemma SweepItem(before: seq<Case>, cs: seq<Case>, ds: seq<Case>, picks: seq<TaskId>, n: nat, inputs: TaskId -> Input,
                  profiles: map<UserId, Profile>, now: Time)
    requires Answers(picks, Awaiting(before), Some(SWEEP_LIMIT)) && n < |picks| && inputs(picks[n]).now == now
    requires SweptTo(before, cs, picks, n, inputs)
    requires Reaches(SweepWorld(cs, picks, n, profiles, now)) && AllAtomic(cs)
    requires picks[n] < |cs| && ds == cs[picks[n] := Solo(0, cs[picks[n]], StartRefund(AdminReason), inputs(picks[n]))]
    ensures Reaches(SweepWorld(ds, picks, n + 1, profiles, now)) && AllAtomic(ds)
    ensures SweptTo(before, ds, picks, n + 1, inputs)
    ensures CountDone(ds, picks[..n + 1]) == CountDone(cs, picks[..n]) + (if IsDone(ds, picks[n]) then 1 else 0)
    ensures CountLost(before, picks[..n + 1]) ==
            CountLost(before, picks[..n]) + (if Identified(cs[picks[n]]) then 0 else 1)
  {
    hide Reaches, Solo, AllAtomic;
    SweptSkips(before, cs, picks, n, inputs);
    SweptNext(before, cs, ds, picks, n, inputs);
    assert picks[..n + 1] == picks[..n] + [picks[n]];
    CountDoneNext(cs, ds, picks[..n], picks[n]);
    var jobs := RefundJobs(picks)[n..];
    assert jobs[1..] == RefundJobs(picks)[n + 1..];
    ItemReaches(SweepWorld(cs, picks, n, profiles, now), picks[n], jobs, true, inputs(picks[n]),
                SweepWorld(ds, picks, n + 1, profiles, now));
  }

  /** The first query of a sweep. */
  lemma SweepStarts(w: World, picks: seq<TaskId>, inputs: TaskId -> Input)
    requires Reaches(w) && w.handlers == map[] && Answers(picks, Awaiting(w.cases), Some(SWEEP_LIMIT))
    ensures Reaches(SweepWorld(w.cases, picks, 0, w.profiles, w.now))
    ensures SweptTo(w.cases, w.cases, picks, 0, inputs)
    ensures CountDone(w.cases, picks[..0]) == CountLost(w.cases, picks[..0]) == 0
  {
    hide Reaches;
    Extend(w, ScanRefunds(0, picks));
    assert RefundJobs(picks)[0..] == RefundJobs(picks);
  }

  /** The second query of a sweep finds no cancelled task with a held escrow, and the sweep ends. */
  lemma SweepEnds(cs: seq<Case>, picks: seq<TaskId>, profiles: map<UserId, Profile>, now: Time)
    requires Reaches(SweepWorld(cs, picks, |picks|, profiles, now))
    ensures Anomalies(cs) == {} && Reaches(World(cs, map[], profiles, now))
  {
    hide Reaches, FundingInv, PaymentInv, ReleaseInv, RefundInv, AssignmentInv;
    var w := SweepWorld(cs, picks, |picks|, profiles, now);
    CasesOf(w);
    assert Anomalies(cs) == {};
    Extend(w, ScanAnomalies(0, []));
    assert Apply(w, ScanAnomalies(0, [])) == World(cs, map[], profiles, now);
  }

  /** The refund of an escrow that awaits one can be refused only for want of a payment id. */
  lemma AwaitingIsRefundable(w: World, t: TaskId)
    requires Reaches(w) && t < |w.cases| && AwaitsRefund(w.cases[t])
    ensures RefundsAreIdentified(w.cases[t]) && Refundable(w.cases[t].escrow.value.status)
  {
    hide Reaches;
    CaseOf(w, t);
  }

  /** The database's answer to an unordered query: some of the matching rows, in some order. */
  method Query(matching: set<TaskId>, limit: Option<nat>) returns (picks: seq<TaskId>)
    ensures Answers(picks, matching, limit)
  {
    picks := [];
    var left := matching;
    while left != {} && limit != Some(|picks|)
      invariant forall i, j :: 0 <= i < j < |picks| ==> picks[i] != picks[j]
      invariant left <= matching && forall t :: t in matching <==> t in picks || t in left
      invariant forall t :: t in picks ==> t !in left
      invariant limit.Some? ==> |picks| <= limit.value
      decreases left
    {
      var t :| t in left;
      picks, left := picks + [t], left - {t};
    }
  }

  /** No refund was left in PROCESSING. */
  predicate NoneStuck(cs: seq<Case>) {
    forall t :: 0 <= t < |cs| && cs[t].refund.Some? ==> cs[t].refund.value.status != Processing
  }

  function SetOf(picks: seq<TaskId>): set<TaskId> {
    set t | t in picks
  }

  lemma {:induction false} DistinctCount(picks: seq<TaskId>)
    requires forall i, j :: 0 <= i < j < |picks| ==> picks[i] != picks[j]
    ensures |SetOf(picks)| == |picks|
  {
    if picks == [] {
    } else {
      var last := |picks| - 1;
      DistinctCount(picks[..last]);
      assert picks[last] !in picks[..last];
      assert SetOf(picks) == SetOf(picks[..last]) + {picks[last]};
    }
  }

  /** A query limited to `limit` rows returns that many of them, or all when there are fewer. */
  lemma AnswerSize(picks: seq<TaskId>, matching: set<TaskId>, limit: nat)
    requires Answers(picks, matching, Some(limit))
    ensures |picks| == if |matching| < limit then |matching| else limit
  {
    DistinctCount(picks);
    var chosen := SetOf(picks);
    SubsetSize(chosen, matching);
    if |picks| < limit {
      assert chosen == matching;
    }
  }

  lemma {:induction false} SubsetSize(a: set<TaskId>, b: set<TaskId>)
    requires a <= b
    ensures |b - a| == |b| - |a|
  {
    assert b == a + (b - a);
  }

  /** A sweep with a provider that accepts completes the refund of an escrow that awaits one,
      unless its payment id is missing, when it changes nothing. */
  lemma SweepRefunds(c: Case, i: Input)
    requires CaseInv(c) && AtomicCase(c) && AwaitsRefund(c)
    requires c.refund.Some? ==> c.refund.value.status != Processing
    requires i.configured && i.success
    ensures var d := Solo(0, c, StartRefund(AdminReason), i);
            if Identified(c) then EscrowIs(d, Refunded) && d.refund.Some? && d.refund.value.status == RefundDone
            else d == c && c.refund.None?
  {
    hide Solo, FundingInv, HeldInv, ReleaseInv, AssignmentInv;
    if Identified(c) {
      SoloRefunds(0, c, AdminReason, i);
    } else {
      SoloRefuses(0, c, AdminReason, i);
    }
  }

  /** One sweep over `picks` with an accepting provider completes exactly the picked refunds
      whose payment id is known, and leaves the others waiting. */
  lemma SweepConverges(w: World, after: seq<Case>, picks: seq<TaskId>, inputs: TaskId -> Input)
    requires Reaches(w) && AllAtomic(w.cases) && NoneStuck(w.cases)
    requires Answers(picks, Awaiting(w.cases), Some(SWEEP_LIMIT))
    requires forall t :: inputs(t).configured && inputs(t).success
    requires SweptTo(w.cases, after, picks, |picks|, inputs)
    ensures NoneStuck(after) && Lost(after) == Lost(w.cases)
    ensures |picks| == if |PendingRefunds(w.cases)| < 100 then |PendingRefunds(w.cases)| else 100
    ensures forall t :: t in picks ==> (IsDone(after, t) <==> t !in Lost(w.cases))
    ensures |PendingRefunds(after)| == |PendingRefunds(w.cases)| - CountDone(after, picks)
    ensures CountDone(after, picks) + CountLost(w.cases, picks) == |picks|
  {
    hide Reaches, Solo, CaseInv, AtomicCase;
    CasesOf(w);
    PendingAreSwept(w.cases);
    PendingAreSwept(after);
    assert picks[..|picks|] == picks;
    forall t | t in picks
      ensures if Identified(w.cases[t]) then EscrowIs(after[t], Refunded) && IsDone(after, t)
              else after[t] == w.cases[t] && !IsDone(after, t)
    {
      SweepRefunds(w.cases[t], inputs(t));
    }
    AnswerSize(picks, Awaiting(w.cases), SWEEP_LIMIT);
    CountDoneIs(after, picks);
    LostOrDone(w.cases, after, picks);
    AwaitingAfter(w.cases, after, picks);
    SubsetSize(DoneOf(after, picks), Awaiting(w.cases));
  }

  lemma AwaitingAfter(cs: seq<Case>, ds: seq<Case>, picks: seq<TaskId>)
    requires |ds| == |cs| && forall t :: t in picks ==> t in Awaiting(cs)
    requires forall t :: 0 <= t < |cs| && t !in picks ==> ds[t] == cs[t]
    requires forall t :: t in picks ==>
               t < |cs| &&
               if Identified(cs[t]) then EscrowIs(ds[t], Refunded) && IsDone(ds, t)
               else ds[t] == cs[t] && !IsDone(ds, t)
    ensures Awaiting(ds) == Awaiting(cs) - DoneOf(ds, picks) && DoneOf(ds, picks) <= Awaiting(cs)
    ensures Lost(ds) == Lost(cs)
  {
  }

  // --- Auto-release ---

  const HOUR: Time := 60 * 60 * 1000

  /** Completed work that nobody has confirmed for 24 hours, and whose money is held. */
  predicate IsOverdue(c: Case, now: Time) {
    && c.task.status == Completed && c.task.mode == EscrowMode && c.task.confirmedAt.None?
    && c.task.completedAt.Some? && c.task.completedAt.value + 24 * 60 * 60 * 1000 <= now
    && EscrowIs(c, Held)
  }

  function Overdue(cs: seq<Case>, now: Time): set<TaskId> {
    set t: nat | t < |cs| && IsOverdue(cs[t], now)
  }

  /** The query of the hourly release looks for exactly these. */
  lemma OverdueIsDue(cs: seq<Case>, now: Time)
    ensures Due(cs, now) == Overdue(cs, now)
    ensures forall t :: 0 <= t < |cs| ==> (IsDue(cs[t], now) <==> IsOverdue(cs[t], now))
  {
  }

  /** A due task can be released to its doer. */
  lemma DueReleases(w: World, t: TaskId, i: Input)
    requires Reaches(w) && t < |w.cases| && IsOverdue(w.cases[t], w.now)
    ensures var c := w.cases[t];
            && c.task.doerId.Some? && c.task.completedAt.Some? && EscrowIs(c, Held)
            && IsPaidOut(c, Solo(0, c, ReleaseFunds(c.task.doerId, ByAuto(w.now, c.task.completedAt.value)), i))
  {
    hide Reaches, Solo, FundingInv, PaymentInv, HeldInv, ReleaseInv, RefundInv;
    CasesOf(w);
    SoloReleases(0, w.cases[t], ByAuto(w.now, w.cases[t].task.completedAt.value), i);
  }

  /** When every due task was released, none is due any more. */
  lemma NothingDue(cs: seq<Case>, ds: seq<Case>, due: seq<TaskId>, now: Time)
    requires Answers(due, Due(cs, now), None) && |ds| == |cs|
    requires forall t :: 0 <= t < |cs| ==> if t in due then IsPaidOut(cs[t], ds[t]) else ds[t] == cs[t]
    ensures Overdue(ds, now) == {} && |due| == |Overdue(cs, now)|
    ensures forall t :: t in due <==> t in Overdue(cs, now)
  {
    DistinctCount(due);
    OverdueIsDue(cs, now);
    assert SetOf(due) == Overdue(cs, now);
  }

  /** What the hourly release earns a user. */
  function EarnedBy(user: UserId, now: Time): Case -> int {
    (c: Case) => if IsOverdue(c, now) && c.task.doerId == Some(user) then 1 else 0
  }

  lemma {:induction false} SumGrows(cs: seq<Case>, ds: seq<Case>, f: Case -> int, g: Case -> int)
    requires |cs| == |ds| && forall t :: 0 <= t < |cs| ==> f(ds[t]) == f(cs[t]) + g(cs[t])
    ensures Sum(ds, f) == Sum(cs, f) + Sum(cs, g)
  {
    if cs == [] {
    } else {
      SumGrows(cs[..|cs| - 1], ds[..|ds| - 1], f, g);
    }
  }

  lemma PaysOnce(c: Case, d: Case, user: UserId, now: Time)
    requires CaseInv(c) && CaseInv(d)
    requires if IsOverdue(c, now) then IsPaidOut(c, d) else d == c
    ensures CreditOf(user)(d) == CreditOf(user)(c) + EarnedBy(user, now)(c)
  {
    hide FundingInv, PaymentInv, RefundInv, AssignmentInv;
  }

  /** The job counters grow by the releases of the hour. */
  lemma JobsGrow(w: World, v: World)
    requires Reaches(w) && Reaches(v) && |w.cases| == |v.cases|
    requires forall t :: 0 <= t < |w.cases| ==>
               if IsOverdue(w.cases[t], w.now) then IsPaidOut(w.cases[t], v.cases[t]) else v.cases[t] == w.cases[t]
    ensures forall user :: user in w.profiles && user in v.profiles ==>
              v.profiles[user].jobs == w.profiles[user].jobs + Sum(w.cases, EarnedBy(user, w.now))
  {
    hide Reaches, CaseInv, IsOverdue, IsPaidOut, HandlersInv;
    ReachesInv(w);
    ReachesInv(v);
    forall user | user in w.profiles && user in v.profiles
      ensures v.profiles[user].jobs == w.profiles[user].jobs + Sum(w.cases, EarnedBy(user, w.now))
    {
      forall t | 0 <= t < |w.cases|
        ensures CreditOf(user)(v.cases[t]) == CreditOf(user)(w.cases[t]) + EarnedBy(user, w.now)(w.cases[t])
      {
        PaysOnce(w.cases[t], v.cases[t], user, w.now);
      }
      SumGrows(w.cases, v.cases, CreditOf(user), EarnedBy(user, w.now));
    }
  }
}
