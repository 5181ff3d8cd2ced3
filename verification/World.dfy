/** All tasks and all handlers in flight, interleaved statement by statement.

    A label is one step: a request arriving and making its first read, one statement of
    one handler, a scan of a scheduled job, a crash that drops a handler wherever it
    stands, the clock, or a profile review. Scans may pick matching rows in any order. */
module World {
  import opened Wrappers
  import opened Rows
  import opened Handlers
  import opened Invariants
  import Fees
  import Orders

  type TaskId = nat

  /** How many rows one pass of the refund sweep takes. */
  const SWEEP_LIMIT: nat := 100

  /** An item of a scheduled job's list, read when the job scanned. */
  datatype Job =
    | RefundJob(t: TaskId)
    | ReleaseJob(t: TaskId, worker: Option<UserId>, scan: Time, completedAt: Time)

  /** A handler stands at a statement on the rows of task `t`, or is about to look an order
      id up among the posting fees, or stands between two items of a job. `rest` is what is
      left of its list, and `more` says that the sweep still has its second scan to make. */
  datatype Handler =
    | At(t: TaskId, pc: Pc, rest: seq<Job>, more: bool)
    | FindFee(order: string, payment: Option<PaymentId>)
    | Between(rest: seq<Job>, more: bool)

  datatype World = World(cases: seq<Case>, handlers: map<HandlerId, Handler>,
                         profiles: map<UserId, Profile>, now: Time)

  const EMPTY: World := World([], map[], map[], 0)

  datatype Label =
    | Create(h: HandlerId, uuid: string, poster: UserId, mode: PaymentMode, tier: Tier, split: Fees.Split)
    | Receive(h: HandlerId, t: TaskId, request: Request)
    | Notify(h: HandlerId, order: string, payment: Option<PaymentId>, owner: Option<TaskId>)
    | NotifyFee(h: HandlerId, owner: Option<TaskId>)
    | Run(h: HandlerId, configured: bool, success: bool)
    | ScanRefunds(h: HandlerId, picks: seq<TaskId>)
    | ScanAnomalies(h: HandlerId, picks: seq<TaskId>)
    | ScanDue(h: HandlerId, picks: seq<TaskId>)
    | NextJob(h: HandlerId)
    | Crash(h: HandlerId)
    | Tick(later: Time)
    | Review(user: UserId, approved: bool, tier: Tier)

  // --- Queries ---

  predicate AwaitsRefund(c: Case) {
    c.escrow.Some? && c.escrow.value.status == RefundPending
  }

  /** The state the repair pass of the sweep looks for. */
  predicate IsAnomaly(c: Case) {
    IsHeld(c) && c.task.status == Cancelled
  }

  predicate IsDue(c: Case, now: Time) {
    && c.task.status == Completed && c.task.mode == EscrowMode && c.task.confirmedAt.None?
    && c.task.completedAt.Some? && c.task.completedAt.value + AUTO_RELEASE_AFTER <= now
    && IsHeld(c)
  }

  /** `picks` is a possible answer of an unordered query for at most `limit` of the rows in `matching`. */
  predicate Answers(picks: seq<TaskId>, matching: set<TaskId>, limit: Option<nat>) {
    && (forall i, j :: 0 <= i < j < |picks| ==> picks[i] != picks[j])
    && (forall i :: 0 <= i < |picks| ==> picks[i] in matching)
    && (limit.Some? ==> |picks| <= limit.value)
    && ((limit.Some? && |picks| == limit.value) || forall t :: t in matching ==> t in picks)
  }

  function Awaiting(cs: seq<Case>): set<TaskId> {
    set t: nat | t < |cs| && AwaitsRefund(cs[t])
  }

  function Anomalies(cs: seq<Case>): set<TaskId> {
    set t: nat | t < |cs| && IsAnomaly(cs[t])
  }

  function Due(cs: seq<Case>, now: Time): set<TaskId> {
    set t: nat | t < |cs| && IsDue(cs[t], now)
  }

  predicate OwnsEscrowOrder(w: World, t: TaskId, order: string) {
    t < |w.cases| && w.cases[t].escrow.Some? && w.cases[t].escrow.value.orderId == Some(order)
  }

  predicate OwnsFeeOrder(w: World, t: TaskId, order: string) {
    t < |w.cases| && w.cases[t].fee.Some? && w.cases[t].fee.value.orderId == Some(order)
  }

  // --- Steps ---

  ghost predicate Enabled(w: World, l: Label) {
    match l
    case Create(h, uuid, _, _, _, split) =>
      h !in w.handlers && Fees.IsSplit(split) && Orders.IsUuid(uuid)
      && forall t :: 0 <= t < |w.cases| ==> w.cases[t].task.uuid != uuid
    case Receive(h, t, r) => h !in w.handlers && t < |w.cases|
    case Notify(h, order, _, owner) =>
      h !in w.handlers &&
      (match owner
       case Some(t) => OwnsEscrowOrder(w, t, order)
       case None => forall t :: 0 <= t < |w.cases| ==> !OwnsEscrowOrder(w, t, order))
    case NotifyFee(h, owner) =>
      h in w.handlers && w.handlers[h].FindFee? &&
      (match owner
       case Some(t) => OwnsFeeOrder(w, t, w.handlers[h].order)
       case None => forall t :: 0 <= t < |w.cases| ==> !OwnsFeeOrder(w, t, w.handlers[h].order))
    case Run(h, _, _) => h in w.handlers && w.handlers[h].At? && w.handlers[h].t < |w.cases|
    case ScanRefunds(h, picks) => h !in w.handlers && Answers(picks, Awaiting(w.cases), Some(SWEEP_LIMIT))
    case ScanAnomalies(h, picks) =>
      h in w.handlers && w.handlers[h] == Between([], true) && Answers(picks, Anomalies(w.cases), Some(SWEEP_LIMIT))
    case ScanDue(h, picks) => h !in w.handlers && Answers(picks, Due(w.cases, w.now), None)
    case NextJob(h) => h in w.handlers && w.handlers[h].Between? && w.handlers[h].rest != []
    case Crash(h) => h in w.handlers
    case Tick(later) => w.now <= later
    case Review(_, _, _) => true
  }

  function Put(hs: map<HandlerId, Handler>, h: HandlerId, x: Option<Handler>): map<HandlerId, Handler> {
    if x.Some? then hs[h := x.value] else map k | k in hs && k != h :: hs[k]
  }

  /** Where a handler goes when its next program point on task `t` is `next`. */
  function Onward(t: TaskId, next: Option<Pc>, rest: seq<Job>, more: bool): Option<Handler> {
    if next.Some? then Some(At(t, next.value, rest, more))
    else if rest == [] && !more then None
    else Some(Between(rest, more))
  }

  function FirstPoint(j: Job): Pc {
    match j
    case RefundJob(_) => StartRefund(AdminReason)
    case ReleaseJob(_, worker, scan, completedAt) => ReleaseFunds(worker, ByAuto(scan, completedAt))
  }

  function RefundJobs(picks: seq<TaskId>): seq<Job> {
    seq(|picks|, i requires 0 <= i < |picks| => RefundJob(picks[i]))
  }

  function ReleaseJobOf(w: World, t: TaskId): Job {
    if t < |w.cases| && w.cases[t].task.completedAt.Some?
    then ReleaseJob(t, w.cases[t].task.doerId, w.now, w.cases[t].task.completedAt.value)
    else ReleaseJob(t, None, w.now, w.now)
  }

  function ReleaseJobs(w: World, picks: seq<TaskId>): seq<Job> {
    seq(|picks|, i requires 0 <= i < |picks| => ReleaseJobOf(w, picks[i]))
  }

  function Lookup(profiles: map<UserId, Profile>, user: UserId): Option<Profile> {
    if user in profiles then Some(profiles[user]) else None
  }

  /** The profile read at a program point. */
  function ProfileFor(w: World, pc: Pc): Option<Profile> {
    if pc.CheckProfile? then Lookup(w.profiles, pc.doer) else None
  }

  /** The job counter is incremented in the release transaction, when the release matched. */
  function Credit(profiles: map<UserId, Profile>, c: Case, pc: Pc): map<UserId, Profile> {
    if pc.ReleaseFunds? && IsHeld(c) && pc.worker.Some? && pc.worker.value in profiles
    then profiles[pc.worker.value := profiles[pc.worker.value].(jobs := profiles[pc.worker.value].jobs + 1)]
    else profiles
  }

  ghost function StepOf(w: World, h: HandlerId, configured: bool, success: bool): Outcome
    requires Enabled(w, Run(h, configured, success))
  {
    var x := w.handlers[h];
    Advance(h, w.cases[x.t], x.pc, Input(w.now, configured, success, ProfileFor(w, x.pc)))
  }

  ghost function Apply(w: World, l: Label): World
    requires Enabled(w, l)
  {
    match l
    case Create(h, uuid, poster, mode, tier, split) =>
      w.(cases := w.cases + [NewCase(uuid, poster, split.budget, mode, tier)],
         handlers := w.handlers[h := At(|w.cases|, InsertMoney(split), [], false)])
    case Receive(h, t, r) =>
      w.(handlers := Put(w.handlers, h, Onward(t, Begin(w.cases[t], r), [], false)))
    case Notify(h, order, payment, owner) =>
      w.(handlers := Put(w.handlers, h,
           if owner.Some? then Onward(owner.value, BeginFunding(w.cases[owner.value].escrow.value, payment), [], false)
           else Some(FindFee(order, payment))))
    case NotifyFee(h, owner) =>
      w.(handlers := Put(w.handlers, h,
           if owner.Some? then Onward(owner.value, BeginFeeFunding(w.cases[owner.value].fee.value,
                                                                   w.handlers[h].payment), [], false)
           else None))
    case Run(h, configured, success) =>
      var x := w.handlers[h];
      var o := StepOf(w, h, configured, success);
      w.(cases := w.cases[x.t := o.rows],
         handlers := Put(w.handlers, h, Onward(x.t, o.next, x.rest, x.more)),
         profiles := Credit(w.profiles, w.cases[x.t], x.pc))
    case ScanRefunds(h, picks) => w.(handlers := w.handlers[h := Between(RefundJobs(picks), true)])
    case ScanAnomalies(h, picks) =>
      w.(handlers := Put(w.handlers, h, if picks == [] then None else Some(Between(RefundJobs(picks), false))))
    case ScanDue(h, picks) =>
      w.(handlers := Put(w.handlers, h, if picks == [] then None else Some(Between(ReleaseJobs(w, picks), false))))
    case NextJob(h) =>
      var x := w.handlers[h];
      w.(handlers := w.handlers[h := At(x.rest[0].t, FirstPoint(x.rest[0]), x.rest[1..], x.more)])
    case Crash(h) => w.(handlers := Put(w.handlers, h, None))
    case Tick(later) => w.(now := later)
    case Review(user, approved, tier) =>
      w.(profiles := w.profiles[user := Profile(approved, tier,
                                        if user in w.profiles then w.profiles[user].jobs else 0)])
  }

  // --- Runs ---

  ghost predicate FromTo(w: World, l: Label, v: World) {
    Enabled(w, l) && v == Apply(w, l)
  }

  /** `ws` are the worlds and `ls` the labels of a run of the system from its beginning. */
  ghost predicate IsRun(ws: seq<World>, ls: seq<Label>) {
    && |ws| == |ls| + 1
    && ws[0] == EMPTY
    && forall i :: 0 <= i < |ls| ==> FromTo(ws[i], ls[i], ws[i + 1])
  }

  // --- The invariant of all runs ---

  ghost predicate JobInv(w: World, j: Job) {
    && j.t < |w.cases|
    && match j
       case RefundJob(t) => w.cases[t].escrow.Some?
       case ReleaseJob(t, worker, scan, completedAt) => CauseInv(w.cases[t], worker, ByAuto(scan, completedAt), w.now)
  }

  ghost predicate HandlerInv(w: World, h: HandlerId, x: Handler) {
    match x
    case At(t, pc, rest, _) =>
      && t < |w.cases| && PcInv(h, w.cases[t], pc, w.now)
      && (pc.CheckFunds? || pc.Assign? ==> pc.doer in w.profiles)
      && forall j :: 0 <= j < |rest| ==> JobInv(w, rest[j])
    case FindFee(_, _) => true
    case Between(rest, _) => forall j :: 0 <= j < |rest| ==> JobInv(w, rest[j])
  }

  ghost predicate CasesInv(w: World) {
    && (forall t :: 0 <= t < |w.cases| ==>
          CaseInv(w.cases[t]) && Orders.IsUuid(w.cases[t].task.uuid)
          && (w.cases[t].task.doerId.Some? ==> w.cases[t].task.doerId.value in w.profiles))
    && (forall t, u :: 0 <= t < u < |w.cases| ==> w.cases[t].task.uuid != w.cases[u].task.uuid)
  }

  ghost predicate HandlersInv(w: World) {
    forall h :: h in w.handlers ==> HandlerInv(w, h, w.handlers[h])
  }

  /** The number of releases credited to `user` by the rows of one task. */
  function CreditOf(user: UserId): Case -> int {
    (c: Case) => if c.trail.releases == 1 && c.trail.releasedTo == Some(user) then 1 else 0
  }

  /** The sum of `f` over a table. */
  function Sum(cs: seq<Case>, f: Case -> int): int {
    if cs == [] then 0 else Sum(cs[..|cs| - 1], f) + f(cs[|cs| - 1])
  }

  ghost predicate CountersInv(w: World) {
    forall user :: user in w.profiles ==> w.profiles[user].jobs == Sum(w.cases, CreditOf(user))
  }

  ghost predicate Inv(w: World) {
    CasesInv(w) && HandlersInv(w) && CountersInv(w)
  }

  /** How one step of handler `k` changes the tables: rows are only added, and the rows
      that were there change within the guarantee. */
  ghost predicate Evolves(k: HandlerId, w: World, v: World) {
    && |w.cases| <= |v.cases| && w.now <= v.now && w.profiles.Keys <= v.profiles.Keys
    && forall t :: 0 <= t < |w.cases| ==> Guarantee(k, w.cases[t], v.cases[t])
  }

  lemma {:induction false} SumUpdate(cs: seq<Case>, t: nat, d: Case, f: Case -> int)
    requires t < |cs|
    ensures Sum(cs[t := d], f) == Sum(cs, f) - f(cs[t]) + f(d)
  {
    var last := |cs| - 1;
    if t < last {
      SumUpdate(cs[..last], t, d, f);
      assert cs[t := d][..last] == cs[..last][t := d];
    } else {
      assert cs[t := d][..last] == cs[..last];
    }
  }

  lemma SumAppend(cs: seq<Case>, d: Case, f: Case -> int)
    ensures Sum(cs + [d], f) == Sum(cs, f) + f(d)
  {
    assert (cs + [d])[..|cs|] == cs;
  }

  lemma CauseStable(k: HandlerId, c: Case, d: Case, worker: Option<UserId>, cause: Cause, now: Time, later: Time)
    requires CauseInv(c, worker, cause, now) && TaskGuarantee(k, c, d) && now <= later
    ensures CauseInv(d, worker, cause, later)
  {
  }

  lemma JobStable(k: HandlerId, w: World, v: World, j: Job)
    requires JobInv(w, j) && Evolves(k, w, v)
    ensures JobInv(v, j)
  {
    if j.ReleaseJob? {
      CauseStable(k, w.cases[j.t], v.cases[j.t], j.worker, ByAuto(j.scan, j.completedAt), w.now, v.now);
    }
  }

  /** A handler other than the one that moved still has what it relies on. */
  lemma HandlerStable(k: HandlerId, w: World, v: World, h: HandlerId, x: Handler)
    requires h != k && HandlerInv(w, h, x)
    requires Evolves(k, w, v) && CasesInv(w) && CasesInv(v)
    ensures HandlerInv(v, h, x)
  {
    hide CaseInv, Guarantee;
    forall j | JobInv(w, j) ensures JobInv(v, j) {
      JobStable(k, w, v, j);
    }
    if x.At? {
      Stable(h, k, w.cases[x.t], v.cases[x.t], x.pc, w.now, v.now);
    }
  }

  function ActorOf(l: Label): HandlerId {
    if l.Tick? || l.Review? then 0 else l.h
  }

  /** Replacing one row set by what a guaranteed step makes of it. */
  lemma RowsReplaced(k: HandlerId, w: World, v: World, t: TaskId)
    requires CasesInv(w) && t < |w.cases|
    requires |v.cases| == |w.cases| && v.cases == w.cases[t := v.cases[t]]
    requires w.now <= v.now && w.profiles.Keys <= v.profiles.Keys
    requires Keeps(k, w.cases[t], v.cases[t])
    requires v.cases[t].task.doerId.Some? ==> v.cases[t].task.doerId.value in v.profiles
    ensures CasesInv(v) && Evolves(k, w, v)
  {
    hide CaseInv, EscrowGuarantee, RefundGuarantee, ReleaseGuarantee;
    forall u | 0 <= u < |w.cases| ensures Guarantee(k, w.cases[u], v.cases[u]) {
      NothingKeeps(k, w.cases[u]);
    }
  }

  /** A step that leaves the tables alone. */
  lemma RowsUntouched(k: HandlerId, w: World, v: World)
    requires CasesInv(w) && v.cases == w.cases && w.now <= v.now && w.profiles.Keys <= v.profiles.Keys
    ensures CasesInv(v) && Evolves(k, w, v)
  {
    hide CaseInv, Guarantee;
    forall u | 0 <= u < |w.cases| ensures Guarantee(k, w.cases[u], v.cases[u]) {
      NothingKeeps(k, w.cases[u]);
    }
  }

  /** A new task's rows satisfy the invariant before its money row exists. */
  lemma NewCaseInv(uuid: string, poster: UserId, budget: int, mode: PaymentMode, tier: Tier)
    ensures CaseInv(NewCase(uuid, poster, budget, mode, tier))
    ensures forall user :: CreditOf(user)(NewCase(uuid, poster, budget, mode, tier)) == 0
  {
  }

  /** The handlers are fine once the one that moved is. */
  lemma HandlersKept(k: HandlerId, w: World, v: World, next: Option<Handler>)
    requires HandlersInv(w) && CasesInv(w) && CasesInv(v) && Evolves(k, w, v)
    requires v.handlers == Put(w.handlers, k, next)
    requires next.Some? ==> HandlerInv(v, k, next.value)
    ensures HandlersInv(v)
  {
    hide HandlerInv, CasesInv, Evolves;
    forall h | h in v.handlers ensures HandlerInv(v, h, v.handlers[h]) {
      if h != k {
        HandlerStable(k, w, v, h, w.handlers[h]);
      }
    }
  }

  lemma OnwardInv(h: HandlerId, v: World, t: TaskId, next: Option<Pc>, rest: seq<Job>, more: bool)
    requires t < |v.cases|
    requires next.Some? ==> PcInv(h, v.cases[t], next.value, v.now)
    requires next.Some? && (next.value.CheckFunds? || next.value.Assign?) ==> next.value.doer in v.profiles
    requires forall j :: 0 <= j < |rest| ==> JobInv(v, rest[j])
    ensures Onward(t, next, rest, more).Some? ==> HandlerInv(v, h, Onward(t, next, rest, more).value)
  {
    hide PcInv;
  }

  lemma CreatePreserves(w: World, l: Label)
    requires Inv(w) && Enabled(w, l) && l.Create?
    ensures Inv(Apply(w, l)) && Evolves(l.h, w, Apply(w, l))
  {
    hide CaseInv, Guarantee;
    var v := Apply(w, l);
    var c := NewCase(l.uuid, l.poster, l.split.budget, l.mode, l.tier);
    NewCaseInv(l.uuid, l.poster, l.split.budget, l.mode, l.tier);
    forall u | 0 <= u < |w.cases| ensures Guarantee(l.h, w.cases[u], v.cases[u]) {
      NothingKeeps(l.h, w.cases[u]);
    }
    HandlersKept(l.h, w, v, Some(At(|w.cases|, InsertMoney(l.split), [], false)));
    forall user | user in v.profiles ensures v.profiles[user].jobs == Sum(v.cases, CreditOf(user)) {
      SumAppend(w.cases, c, CreditOf(user));
    }
  }

  lemma ReceivePreserves(w: World, l: Label)
    requires Inv(w) && Enabled(w, l) && l.Receive?
    ensures Inv(Apply(w, l)) && Evolves(l.h, w, Apply(w, l))
  {
    hide CaseInv, Guarantee, PcInv, HandlersInv, HandlerInv, Begin;
    var h, t, v := l.h, l.t, Apply(w, l);
    var next := Begin(w.cases[t], l.request);
    RowsUntouched(h, w, v);
    if next.Some? {
      BeginSound(h, w.cases[t], l.request, w.now);
      BeginAssignsNobody(w.cases[t], l.request);
    }
    OnwardInv(h, v, t, next, [], false);
    HandlersKept(h, w, v, Onward(t, next, [], false));
  }

  lemma BeginAssignsNobody(c: Case, r: Request)
    ensures Begin(c, r).Some? ==> !Begin(c, r).value.CheckFunds? && !Begin(c, r).value.Assign?
  {
  }

  lemma NotifyPreserves(w: World, l: Label)
    requires Inv(w) && Enabled(w, l) && (l.Notify? || l.NotifyFee?)
    ensures Inv(Apply(w, l)) && Evolves(l.h, w, Apply(w, l))
  {
    hide CaseInv, Guarantee;
    var v := Apply(w, l);
    RowsUntouched(l.h, w, v);
    match l
    case Notify(h, order, payment, owner) =>
      HandlersKept(h, w, v, if h in v.handlers then Some(v.handlers[h]) else None);
    case NotifyFee(h, owner) =>
      HandlersKept(h, w, v, if h in v.handlers then Some(v.handlers[h]) else None);
  }

  lemma ScanPreserves(w: World, l: Label)
    requires Inv(w) && Enabled(w, l) && (l.ScanRefunds? || l.ScanAnomalies? || l.ScanDue?)
    ensures Inv(Apply(w, l)) && Evolves(l.h, w, Apply(w, l))
  {
    hide Guarantee;
    var v := Apply(w, l);
    RowsUntouched(l.h, w, v);
    HandlersKept(l.h, w, v, if l.h in v.handlers then Some(v.handlers[l.h]) else None);
  }

  lemma RunPreserves(w: World, l: Label)
    requires Inv(w) && Enabled(w, l) && l.Run?
    ensures Inv(Apply(w, l)) && Evolves(l.h, w, Apply(w, l))
  {
    hide CaseInv, Guarantee;
    var h, x, v := l.h, w.handlers[l.h], Apply(w, l);
    var c := w.cases[x.t];
    var i := Input(w.now, l.configured, l.success, ProfileFor(w, x.pc));
    var o := Advance(h, c, x.pc, i);
    StepSound(h, c, x.pc, i);
    RunKeepsProfiles(w, l);
    RowsReplaced(h, w, v, x.t);
    forall j | 0 <= j < |x.rest| ensures JobInv(v, x.rest[j]) {
      JobStable(h, w, v, x.rest[j]);
    }
    OnwardInv(h, v, x.t, o.next, x.rest, x.more);
    HandlersKept(h, w, v, Onward(x.t, o.next, x.rest, x.more));
  }

  /** The releases of a row set grow only at a release statement that matches. */
  lemma ReleasesGrow(h: HandlerId, c: Case, pc: Pc, i: Input)
    ensures var d := Advance(h, c, pc, i).rows;
            if pc.ReleaseFunds? && IsHeld(c)
            then d.trail.releases == c.trail.releases + 1 && d.trail.releasedTo == pc.worker
            else d.trail.releases == c.trail.releases && d.trail.releasedTo == c.trail.releasedTo
  {
  }

  /** The assigned doer changes only at an assignment, which follows a profile check. */
  lemma DoerChanges(h: HandlerId, c: Case, pc: Pc, i: Input)
    ensures var o := Advance(h, c, pc, i);
            && (o.rows.task.doerId == c.task.doerId || (pc.Assign? && o.rows.task.doerId == Some(pc.doer)))
            && (o.next.Some? && o.next.value.CheckFunds? ==>
                pc.CheckProfile? && o.next.value.doer == pc.doer && i.profile.Some?)
            && (o.next.Some? && o.next.value.Assign? ==>
                o.next.value.doer == (if pc.CheckProfile? || pc.CheckFunds? then pc.doer else 0)
                && (pc.CheckFunds? || (pc.CheckProfile? && i.profile.Some?)))
  {
  }

  /** What a statement does to the profiles: an assigned doer has one, and the counters
      grow exactly as the releases do. */
  lemma RunKeepsProfiles(w: World, l: Label)
    requires Inv(w) && Enabled(w, l) && l.Run?
    ensures var x, o, v := w.handlers[l.h], StepOf(w, l.h, l.configured, l.success), Apply(w, l);
            && (o.rows.task.doerId.Some? ==> o.rows.task.doerId.value in v.profiles)
            && (o.next.Some? && (o.next.value.CheckFunds? || o.next.value.Assign?) ==> o.next.value.doer in v.profiles)
            && CountersInv(v)
  {
    hide Advance, Guarantee, FundingInv, PaymentInv, RefundInv;
    var x, v := w.handlers[l.h], Apply(w, l);
    var c, d := w.cases[x.t], v.cases[x.t];
    assert CaseInv(c) && PcInv(l.h, c, x.pc, w.now);
    var i := Input(w.now, l.configured, l.success, ProfileFor(w, x.pc));
    ReleasesGrow(l.h, c, x.pc, i);
    DoerChanges(l.h, c, x.pc, i);
    CountersGrow(w, l);
  }

  /** The row that a release finds HELD has had none. */
  lemma ReleaseIsFirst(w: World, h: HandlerId)
    requires CasesInv(w) && HandlersInv(w) && h in w.handlers && w.handlers[h].At? && w.handlers[h].pc.ReleaseFunds?
    ensures w.handlers[h].t < |w.cases|
    ensures var c := w.cases[w.handlers[h].t];
            && w.handlers[h].pc.worker.Some?
            && (IsHeld(c) ==> c.trail.releases == 0)
  {
    hide FundingInv, PaymentInv, RefundInv, AssignmentInv;
    assert HandlerInv(w, h, w.handlers[h]);
    assert CaseInv(w.cases[w.handlers[h].t]);
  }

  lemma CountersGrow(w: World, l: Label)
    requires Inv(w) && Enabled(w, l) && l.Run?
    ensures CountersInv(Apply(w, l))
  {
    hide Advance, CasesInv, HandlersInv;
    var x, v := w.handlers[l.h], Apply(w, l);
    var c, d := w.cases[x.t], v.cases[x.t];
    if x.pc.ReleaseFunds? {
      ReleaseIsFirst(w, l.h);
    }
    ReleasesGrow(l.h, c, x.pc, Input(w.now, l.configured, l.success, ProfileFor(w, x.pc)));
    forall user | user in v.profiles ensures v.profiles[user].jobs == Sum(v.cases, CreditOf(user)) {
      SumUpdate(w.cases, x.t, d, CreditOf(user));
    }
  }

  /** The clock and the profile reviews disturb no handler. */
  lemma QuietPreserves(w: World, l: Label)
    requires Inv(w) && Enabled(w, l) && (l.Tick? || l.Review?)
    ensures Inv(Apply(w, l)) && Evolves(ActorOf(l), w, Apply(w, l))
  {
    hide CaseInv, Guarantee, HandlerInv;
    var v := Apply(w, l);
    RowsUntouched(ActorOf(l), w, v);
    forall h | h in v.handlers ensures HandlerInv(v, h, v.handlers[h]) {
      RowsUntouched(h + 1, w, v);
      HandlerStable(h + 1, w, v, h, w.handlers[h]);
    }
    CountersSurviveReview(w, l);
  }

  /** No release was ever credited to a user without a profile. */
  lemma {:induction false} NoStrayCredit(cs: seq<Case>, user: UserId)
    requires forall t :: 0 <= t < |cs| ==> CaseInv(cs[t]) && cs[t].task.doerId != Some(user)
    ensures Sum(cs, CreditOf(user)) == 0
  {
    hide FundingInv, PaymentInv, HeldInv, RefundInv, AssignmentInv;
    if cs == [] {
    } else {
      NoStrayCredit(cs[..|cs| - 1], user);
    }
  }

  lemma CountersSurviveReview(w: World, l: Label)
    requires Inv(w) && Enabled(w, l) && (l.Tick? || l.Review?)
    ensures CountersInv(Apply(w, l))
  {
    hide CaseInv, HandlersInv;
    if l.Review? && l.user !in w.profiles {
      NoStrayCredit(w.cases, l.user);
    }
  }

  lemma JobPreserves(w: World, l: Label)
    requires Inv(w) && Enabled(w, l) && (l.NextJob? || l.Crash?)
    ensures Inv(Apply(w, l)) && Evolves(l.h, w, Apply(w, l))
  {
    hide CaseInv, Guarantee;
    var v := Apply(w, l);
    RowsUntouched(l.h, w, v);
    if l.NextJob? {
      HandlersKept(l.h, w, v, Some(v.handlers[l.h]));
    } else {
      HandlersKept(l.h, w, v, None);
    }
  }

  /** Every step of the system keeps the invariant and changes the tables within the
      guarantee of the handler that moved. */
  lemma StepPreserves(w: World, l: Label)
    requires Inv(w) && Enabled(w, l)
    ensures Inv(Apply(w, l)) && Evolves(ActorOf(l), w, Apply(w, l))
  {
    hide Inv, Evolves;
    match l
    case Create(_, _, _, _, _, _) => CreatePreserves(w, l);
    case Receive(_, _, _) => ReceivePreserves(w, l);
    case Notify(_, _, _, _) => NotifyPreserves(w, l);
    case NotifyFee(_, _) => NotifyPreserves(w, l);
    case Run(_, _, _) => RunPreserves(w, l);
    case ScanRefunds(_, _) => ScanPreserves(w, l);
    case ScanAnomalies(_, _) => ScanPreserves(w, l);
    case ScanDue(_, _) => ScanPreserves(w, l);
    case NextJob(_) => JobPreserves(w, l);
    case Crash(_) => JobPreserves(w, l);
    case Tick(_) => QuietPreserves(w, l);
    case Review(_, _, _) => QuietPreserves(w, l);
  }

  /** The invariant holds in every world of every run. */
  lemma {:induction false} RunInv(ws: seq<World>, ls: seq<Label>, n: nat)
    requires IsRun(ws, ls) && n < |ws|
    ensures Inv(ws[n])
  {
    hide Inv, FromTo;
    if n == 0 {
      assert Inv(EMPTY) by { EmptyInv(); }
    } else {
      RunInv(ws, ls, n - 1);
      assert FromTo(ws[n - 1], ls[n - 1], ws[n]);
      FromToPreserves(ws[n - 1], ls[n - 1], ws[n]);
    }
  }

  lemma EmptyInv()
    ensures Inv(EMPTY)
  {
  }

  lemma FromToPreserves(w: World, l: Label, v: World)
    requires Inv(w) && FromTo(w, l, v)
    ensures Inv(v) && Evolves(ActorOf(l), w, v)
  {
    StepPreserves(w, l);
  }

  // --- Reachable worlds ---

  /** `w` is the last world of some run. */
  ghost predicate Reaches(w: World) {
    exists ws, ls :: IsRun(ws, ls) && ws[|ls|] == w
  }

  lemma Extend(w: World, l: Label)
    requires Reaches(w) && Enabled(w, l)
    ensures Reaches(Apply(w, l))
  {
    hide Enabled, Apply;
    var ws, ls :| IsRun(ws, ls) && ws[|ls|] == w;
    var vs, ms := ws + [Apply(w, l)], ls + [l];
    assert FromTo(vs[|ls|], ms[|ls|], vs[|ls| + 1]);
    forall i | 0 <= i < |ms| ensures FromTo(vs[i], ms[i], vs[i + 1]) {
      if i < |ls| {
        assert FromTo(ws[i], ls[i], ws[i + 1]);
      }
    }
    assert IsRun(vs, ms);
  }

  lemma ReachesInv(w: World)
    requires Reaches(w)
    ensures Inv(w)
  {
    hide Inv;
    var ws, ls :| IsRun(ws, ls) && ws[|ls|] == w;
    RunInv(ws, ls, |ls|);
  }
}
