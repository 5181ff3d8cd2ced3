/** The order in which transactions lock the rows of a task, and the deadlocks it allows.

    A funding, a cancel and a dispute take the task row before the escrow row, and a dispute
    inserts its own row in between. A confirmed release and the resolution of a dispute take
    the task row last. Locks and waiting are as in `RowLocks`: a statement locks the rows
    whose committed version meets its WHERE clause, keeps them until its transaction ends,
    and waits for a lock that another one holds. The plain read of a funding is taken
    together with the statement after it.

    A second dispute of a task fails at its insert. Whether it first waits for a resolution
    that has the dispute row is up to the database, and so a parameter, `patient`: PostgreSQL
    waits for the transaction that is changing the row of an equal key. */
module LockOrder {
  import opened Wrappers
  import opened Rows
  import opened World

  datatype Row = TaskRow(t: TaskId) | EscrowRow(t: TaskId) | DisputeRow(t: TaskId) | ProfileRow(user: UserId)

  /** The committed status of a task and of its escrow, and whether it has a dispute. */
  datatype Status = Status(task: TaskStatus, escrow: Option<EscrowStatus>, disputed: bool)

  datatype Kind =
    | Funding(t: TaskId)
    | CancelOf(t: TaskId)
    | ReleaseOf(t: TaskId, doer: UserId, confirmed: bool)
    | DisputeOf(t: TaskId)
    | ResolveOf(t: TaskId, refundPoster: bool)

  datatype Point = First | Second | Third | Commit | Ended

  /** A transaction with what it has written and not yet committed. */
  datatype Txn = Txn(kind: Kind, pc: Point, newTask: Option<TaskStatus>, newEscrow: Option<EscrowStatus>,
                     dispute: bool, profile: bool)

  datatype State = State(db: seq<Status>, txns: seq<Txn>, patient: bool)

  // --- Statements ---

  predicate Holds(x: Txn, row: Row) {
    match row
    case TaskRow(t) => x.kind.t == t && x.newTask.Some?
    case EscrowRow(t) => x.kind.t == t && x.newEscrow.Some?
    case DisputeRow(t) => x.kind.t == t && x.dispute
    case ProfileRow(user) => x.kind.ReleaseOf? && x.kind.doer == user && x.profile
  }

  /** The row that the statement at hand needs. */
  function Wants(x: Txn, s: Status, patient: bool): Option<Row> {
    var task, escrow, dispute := Some(TaskRow(x.kind.t)), Some(EscrowRow(x.kind.t)), Some(DisputeRow(x.kind.t));
    match x.kind
    case Funding(_) =>
      if x.pc.First? && s.task == PendingPayment then task
      else if x.pc.Second? && s.escrow == Some(Pending) then escrow else None
    case CancelOf(_) =>
      if x.pc.First? && Cancellable(s.task) then task
      else if x.pc.Second? && s.escrow == Some(Held) then escrow else None
    case ReleaseOf(_, doer, confirmed) =>
      if x.pc.First? && s.escrow == Some(Held) then escrow
      else if x.pc.Second? && x.newEscrow.Some? then Some(ProfileRow(doer))
      else if x.pc.Third? && confirmed then task else None
    case DisputeOf(_) =>
      if x.pc.First? then task
      else if x.pc.Second? && (patient || !s.disputed) then dispute
      else if x.pc.Third? && s.escrow.Some? then escrow else None
    case ResolveOf(_, _) =>
      if x.pc.First? && s.disputed then dispute
      else if x.pc.Second? && s.escrow.Some? then escrow
      else if x.pc.Third? then task else None
  }

  predicate InRange(s: State, n: nat) {
    n < |s.txns| && s.txns[n].kind.t < |s.db|
  }

  function WantedBy(s: State, n: nat): Option<Row>
    requires InRange(s, n)
  {
    Wants(s.txns[n], s.db[s.txns[n].kind.t], s.patient)
  }

  predicate Locked(s: State, n: nat, row: Row) {
    exists m: nat :: m < |s.txns| && m != n && Holds(s.txns[m], row)
  }

  predicate Waits(s: State, n: nat)
    requires InRange(s, n)
  {
    WantedBy(s, n).Some? && Locked(s, n, WantedBy(s, n).value)
  }

  predicate Unfinished(s: State, n: nat) {
    InRange(s, n) && !s.txns[n].pc.Ended?
  }

  predicate Ready(s: State, n: nat) {
    Unfinished(s, n) && !Waits(s, n)
  }

  function TaskValue(k: Kind, s: Status): TaskStatus {
    match k
    case Funding(_) => Open
    case CancelOf(_) => Cancelled
    case ReleaseOf(_, _, _) => s.task
    case DisputeOf(_) => TaskDisputed
    case ResolveOf(_, _) => Completed
  }

  function EscrowValue(x: Txn, s: Status): EscrowStatus {
    match x.kind
    case Funding(_) => if x.newTask.None? && s.task == Cancelled then RefundPending else Held
    case CancelOf(_) => RefundPending
    case ReleaseOf(_, _, _) => Released
    case DisputeOf(_) => EscrowDisputed
    case ResolveOf(_, refundPoster) => if refundPoster then Refunded else Released
  }

  /** A cancel that lost its race and a resolution without a dispute end at once. */
  function Following(x: Txn, s: Status): Point {
    match x.pc
    case First =>
      if (x.kind.CancelOf? && !Cancellable(s.task)) || (x.kind.ResolveOf? && !s.disputed) then Ended else Second
    case Second => if x.kind.Funding? || x.kind.CancelOf? then Commit else Third
    case Third => Commit
    case Commit => Ended
    case Ended => Ended
  }

  /** The insert of a second dispute, which ends its transaction. */
  predicate IsRefused(x: Txn, s: Status) {
    x.kind.DisputeOf? && x.pc.Second? && s.disputed
  }

  /** A transaction after its next statement, its commit apart. */
  function Moved(x: Txn, s: Status, patient: bool): Txn {
    var y := x.(pc := Following(x, s));
    if IsRefused(x, s) then Over(x)
    else match Wants(x, s, patient)
      case None => y
      case Some(TaskRow(_)) => y.(newTask := Some(TaskValue(x.kind, s)))
      case Some(EscrowRow(_)) => y.(newEscrow := Some(EscrowValue(x, s)))
      case Some(DisputeRow(_)) => y.(dispute := true)
      case Some(ProfileRow(_)) => y.(profile := true)
  }

  function Overlay(s: Status, x: Txn): Status {
    Status(if x.newTask.Some? then x.newTask.value else s.task,
           if x.newEscrow.Some? then x.newEscrow else s.escrow,
           s.disputed || x.dispute)
  }

  function Over(x: Txn): Txn {
    Txn(x.kind, Ended, None, None, false, false)
  }

  function Step(s: State, n: nat): State
    requires Ready(s, n)
  {
    var x := s.txns[n];
    if x.pc.Commit? then s.(db := s.db[x.kind.t := Overlay(s.db[x.kind.t], x)], txns := s.txns[n := Over(x)])
    else s.(txns := s.txns[n := Moved(x, s.db[x.kind.t], s.patient)])
  }

  function Abort(s: State, n: nat): State
    requires n < |s.txns|
  {
    s.(txns := s.txns[n := Over(s.txns[n])])
  }

  ghost predicate Next(s: State, v: State) {
    || (exists n: nat :: Ready(s, n) && v == Step(s, n))
    || (exists n: nat :: Unfinished(s, n) && v == Abort(s, n))
  }

  function Starting(k: Kind): Txn {
    Txn(k, First, None, None, false, false)
  }

  predicate Initial(s: State) {
    forall n :: 0 <= n < |s.txns| ==> s.txns[n] == Starting(s.txns[n].kind) && InRange(s, n)
  }

  ghost predicate IsRun(ss: seq<State>) {
    |ss| > 0 && Initial(ss[0]) && forall i :: 0 <= i < |ss| - 1 ==> Next(ss[i], ss[i + 1])
  }

  // --- Who holds what, where ---

  predicate TakesTaskFirst(k: Kind) {
    k.Funding? || k.CancelOf? || k.DisputeOf?
  }

  /** Locks are taken in the order of the statements, and given back at the end. */
  predicate Ordered(x: Txn) {
    && (x.newTask.Some? ==>
        || x.pc.Commit?
        || (TakesTaskFirst(x.kind) && x.pc.Second?)
        || (x.kind.DisputeOf? && x.pc.Third?))
    && (x.kind.DisputeOf? && (x.pc.Second? || x.pc.Third? || x.pc.Commit?) ==> x.newTask.Some?)
    && (x.newEscrow.Some? ==>
        || x.pc.Commit?
        || (x.kind.ResolveOf? && x.pc.Third?)
        || (x.kind.ReleaseOf? && (x.pc.Second? || x.pc.Third?)))
    && (x.dispute ==>
        || (x.kind.DisputeOf? && x.newTask.Some? && (x.pc.Third? || x.pc.Commit?))
        || (x.kind.ResolveOf? && (x.pc.Second? || x.pc.Third? || x.pc.Commit?)))
    && (x.kind.DisputeOf? && (x.pc.Third? || x.pc.Commit?) ==> x.dispute)
    && (x.kind.ResolveOf? && (x.pc.Second? || x.pc.Third? || x.pc.Commit?) ==> x.dispute)
    && (x.profile ==> x.kind.ReleaseOf? && x.newEscrow.Some? && (x.pc.Third? || x.pc.Commit?))
  }

  /** What the holder of a row saw in it: nobody has changed the row since. */
  predicate Saw(x: Txn, s: Status) {
    && (x.newEscrow.Some? ==> s.escrow.Some? && x.newEscrow != Some(Pending))
    && (x.newEscrow == Some(Held) ==> s.escrow == Some(Pending))
    && (x.kind.ReleaseOf? && x.newEscrow.Some? ==> s.escrow == Some(Held))
    && (x.dispute ==> (s.disputed <==> x.kind.ResolveOf?))
    && (x.kind.DisputeOf? && x.pc.Commit? && s.escrow.Some? ==> x.newEscrow == Some(EscrowDisputed))
  }

  ghost predicate Apart(x: Txn, y: Txn) {
    forall row :: !(Holds(x, row) && Holds(y, row))
  }

  ghost predicate Inv(s: State) {
    && (forall n :: 0 <= n < |s.txns| ==>
          InRange(s, n) && Ordered(s.txns[n]) && Saw(s.txns[n], s.db[s.txns[n].kind.t]))
    && (forall n, m :: 0 <= n < |s.txns| && 0 <= m < |s.txns| && n != m ==> Apart(s.txns[n], s.txns[m]))
  }

  lemma MovedOrdered(x: Txn, s: Status, patient: bool)
    requires Ordered(x) && Saw(x, s) && !x.pc.Commit?
    ensures var y := Moved(x, s, patient);
            Ordered(y) && Saw(y, s) && y.kind == x.kind
            && forall row :: Holds(y, row) ==> Holds(x, row) || Wants(x, s, patient) == Some(row)
  {
  }

  lemma StepKeeps(s: State, n: nat)
    requires Inv(s) && Ready(s, n)
    ensures Inv(Step(s, n))
  {
    hide Wants, Moved, Ordered, Holds, Saw;
    var v := Step(s, n);
    if s.txns[n].pc.Commit? {
      OverHoldsNothing(s.txns[n]);
      forall m | 0 <= m < |v.txns| ensures Saw(v.txns[m], v.db[v.txns[m].kind.t]) {
        if m == n {
          OverSaw(s.txns[n], v.db[s.txns[n].kind.t]);
        } else {
          StillSaw(s, n, m);
        }
      }
    } else {
      MovedOrdered(s.txns[n], s.db[s.txns[n].kind.t], s.patient);
      forall m | 0 <= m < |v.txns| && m != n ensures Apart(v.txns[n], v.txns[m]) && Apart(v.txns[m], v.txns[n]) {
        assert Apart(s.txns[n], s.txns[m]);
      }
    }
  }

  lemma OverSaw(x: Txn, s: Status)
    ensures Saw(Over(x), s)
  {
  }

  /** A commit changes nothing that another transaction has locked. */
  lemma CommitSaw(x: Txn, y: Txn, s: Status)
    requires x.kind.t == y.kind.t && Ordered(x) && Ordered(y) && Saw(x, s) && Saw(y, s) && Apart(x, y) && x.pc.Commit?
    ensures Saw(y, Overlay(s, x))
  {
    assert !(Holds(x, EscrowRow(x.kind.t)) && Holds(y, EscrowRow(x.kind.t)));
    assert !(Holds(x, DisputeRow(x.kind.t)) && Holds(y, DisputeRow(x.kind.t)));
  }

  lemma StillSaw(s: State, n: nat, m: nat)
    requires Inv(s) && Ready(s, n) && s.txns[n].pc.Commit? && m < |s.txns| && m != n
    ensures InRange(s, m) && Saw(s.txns[m], Step(s, n).db[s.txns[m].kind.t])
  {
    hide Ordered, Wants, Moved, Saw, Overlay;
    assert Apart(s.txns[n], s.txns[m]);
    assert InRange(s, m) && Saw(s.txns[m], s.db[s.txns[m].kind.t]);
    if s.txns[m].kind.t == s.txns[n].kind.t {
      CommitSaw(s.txns[n], s.txns[m], s.db[s.txns[n].kind.t]);
    }
  }

  lemma OverHoldsNothing(x: Txn)
    ensures Ordered(Over(x)) && forall row :: !Holds(Over(x), row)
  {
  }

  lemma AbortKeeps(s: State, n: nat)
    requires Inv(s) && n < |s.txns|
    ensures Inv(Abort(s, n))
  {
    hide Ordered, Holds, Saw;
    OverHoldsNothing(s.txns[n]);
    assert InRange(s, n);
    OverSaw(s.txns[n], s.db[s.txns[n].kind.t]);
  }

  lemma NextKeeps(s: State, v: State)
    requires Inv(s) && Next(s, v)
    ensures Inv(v)
  {
    hide Inv, Step, Abort, Ready;
    if n: nat :| Ready(s, n) && v == Step(s, n) {
      StepKeeps(s, n);
    } else {
      var n: nat :| Unfinished(s, n) && v == Abort(s, n);
      AbortKeeps(s, n);
    }
  }

  lemma {:induction false} RunInv(ss: seq<State>, i: nat)
    requires IsRun(ss) && i < |ss|
    ensures Inv(ss[i]) && ss[i].patient == ss[0].patient
  {
    hide Next;
    if i == 0 {
    } else {
      RunInv(ss, i - 1);
      NextKeeps(ss[i - 1], ss[i]);
      assert ss[i].patient == ss[i - 1].patient by { PatienceStays(ss[i - 1], ss[i]); }
    }
  }

  lemma PatienceStays(s: State, v: State)
    requires Next(s, v)
    ensures v.patient == s.patient
  {
    hide Ready, Moved, Overlay;
  }

  // --- Rows that the system can have ---

  /** Once there is a dispute, the money neither waits for its payment nor is held. */
  predicate Plausible(s: Status) {
    s.disputed ==> s.escrow != Some(Pending) && s.escrow != Some(Held)
  }

  predicate PlausibleRows(s: State) {
    forall t :: 0 <= t < |s.db| ==> Plausible(s.db[t])
  }

  lemma CommitPlausible(x: Txn, s: Status)
    requires Ordered(x) && Saw(x, s) && Plausible(s) && x.pc.Commit?
    ensures Plausible(Overlay(s, x))
  {
  }

  lemma NextPlausible(s: State, v: State)
    requires Inv(s) && Next(s, v) && PlausibleRows(s)
    ensures PlausibleRows(v)
  {
    hide Ordered, Saw, Plausible, Overlay, Apart, Moved, Waits;
    if n: nat :| Ready(s, n) && v == Step(s, n) {
      if s.txns[n].pc.Commit? {
        CommitPlausible(s.txns[n], s.db[s.txns[n].kind.t]);
      }
    }
  }

  lemma {:induction false} RunPlausible(ss: seq<State>, i: nat)
    requires IsRun(ss) && i < |ss| && PlausibleRows(ss[0])
    ensures PlausibleRows(ss[i])
  {
    hide Next, PlausibleRows;
    if i == 0 {
    } else {
      RunPlausible(ss, i - 1);
      RunInv(ss, i - 1);
      NextPlausible(ss[i - 1], ss[i]);
    }
  }

  // --- Deadlock ---

  /** `n` waits for the task row, which `m` holds, and `m` for a row that `n` holds. */
  predicate Crossed(s: State, n: nat, m: nat) {
    && Unfinished(s, n) && Unfinished(s, m) && n != m && s.txns[n].kind.t == s.txns[m].kind.t
    && var task := TaskRow(s.txns[n].kind.t);
       && WantedBy(s, n) == Some(task) && Holds(s.txns[m], task)
       && WantedBy(s, m).Some? && Holds(s.txns[n], WantedBy(s, m).value)
  }

  /** Nothing can run, and the rows are plausible if inserts wait. */
  ghost predicate Quiet(s: State) {
    Inv(s) && (forall n: nat :: !Ready(s, n)) && (s.patient ==> PlausibleRows(s))
  }

  lemma Sound(s: State, n: nat)
    requires Inv(s) && n < |s.txns|
    ensures InRange(s, n) && Ordered(s.txns[n]) && Saw(s.txns[n], s.db[s.txns[n].kind.t])
  {
  }

  lemma QuietAt(s: State, n: nat)
    requires Quiet(s) && n < |s.txns|
    ensures InRange(s, n) && Ordered(s.txns[n]) && Saw(s.txns[n], s.db[s.txns[n].kind.t]) && !Ready(s, n)
    ensures s.patient ==> Plausible(s.db[s.txns[n].kind.t])
  {
    hide Ready, Ordered, Saw, Plausible;
  }

  lemma HolderIsUnique(s: State, n: nat, m: nat, row: Row)
    requires Inv(s) && n < |s.txns| && m < |s.txns| && Holds(s.txns[n], row) && Holds(s.txns[m], row)
    ensures n == m
  {
    assert n != m ==> Apart(s.txns[n], s.txns[m]);
  }

  /** When nothing can run, the holder of a task row waits for the escrow or the dispute row. */
  lemma TaskHolderWaits(s: State, n: nat)
    requires Quiet(s) && n < |s.txns| && s.txns[n].newTask.Some?
    ensures Unfinished(s, n) && Waits(s, n)
    ensures var t, row := s.txns[n].kind.t, WantedBy(s, n);
            row == Some(EscrowRow(t)) || (row == Some(DisputeRow(t)) && (s.patient || !s.db[t].disputed))
  {
    hide Quiet;
    QuietAt(s, n);
  }

  /** And whoever has the escrow row and waits for the task row is crossed with its holder. */
  lemma Meet(s: State, n: nat, m: nat)
    requires Quiet(s) && n < |s.txns| && m < |s.txns| && n != m && s.txns[n].newEscrow.Some?
    requires Unfinished(s, n) && WantedBy(s, n) == Some(TaskRow(s.txns[n].kind.t))
    requires Holds(s.txns[m], TaskRow(s.txns[n].kind.t))
    ensures Crossed(s, n, m)
  {
    assert Inv(s);
    hide Quiet, Inv;
    var t := s.txns[n].kind.t;
    QuietAt(s, n);
    TaskHolderWaits(s, m);
    var k: nat :| k < |s.txns| && k != m && Holds(s.txns[k], WantedBy(s, m).value);
    QuietAt(s, k);
    if WantedBy(s, m) == Some(EscrowRow(t)) {
      HolderIsUnique(s, n, k, EscrowRow(t));
    } else if s.txns[k].kind.DisputeOf? {
      HolderIsUnique(s, k, m, TaskRow(t));
    } else {
      HolderIsUnique(s, n, k, DisputeRow(t));
    }
  }

  /** The holder of an escrow row is crossed, or waits for a profile whose holder is. */
  lemma EscrowHolderCrossed(s: State, n: nat) returns (x: nat, y: nat)
    requires Quiet(s) && n < |s.txns| && s.txns[n].newEscrow.Some?
    ensures Crossed(s, x, y)
  {
    hide Quiet, Crossed;
    QuietAt(s, n);
    x := n;
    if WantedBy(s, n).value.ProfileRow? {
      x :| x < |s.txns| && x != n && Holds(s.txns[x], WantedBy(s, n).value);
      QuietAt(s, x);
    }
    y :| y < |s.txns| && y != x && Holds(s.txns[y], TaskRow(s.txns[x].kind.t));
    Meet(s, x, y);
  }

  /** So is a resolution, or the row that it waits for. */
  lemma ResolutionCrossed(s: State, n: nat) returns (x: nat, y: nat)
    requires Quiet(s) && n < |s.txns| && s.txns[n].kind.ResolveOf? && s.txns[n].dispute
    ensures Crossed(s, x, y)
  {
    assert Inv(s);
    hide Quiet, Inv;
    QuietAt(s, n);
    var t := s.txns[n].kind.t;
    var m: nat :| m < |s.txns| && m != n && Holds(s.txns[m], WantedBy(s, n).value);
    if WantedBy(s, n) == Some(EscrowRow(t)) {
      x, y := EscrowHolderCrossed(s, m);
    } else {
      TaskHolderWaits(s, m);
      var k: nat :| k < |s.txns| && k != m && Holds(s.txns[k], WantedBy(s, m).value);
      if WantedBy(s, m) == Some(EscrowRow(t)) {
        x, y := EscrowHolderCrossed(s, k);
      } else {
        HolderIsUnique(s, n, k, DisputeRow(t));
        x, y := n, m;
      }
    }
  }

  lemma DisputeHolderCrossed(s: State, n: nat) returns (x: nat, y: nat)
    requires Quiet(s) && n < |s.txns| && s.txns[n].dispute
    ensures Crossed(s, x, y)
  {
    hide Crossed;
    assert Inv(s);
    hide Quiet, Inv;
    QuietAt(s, n);
    if s.txns[n].kind.ResolveOf? {
      x, y := ResolutionCrossed(s, n);
    } else {
      var m: nat :| m < |s.txns| && m != n && Holds(s.txns[m], WantedBy(s, n).value);
      x, y := EscrowHolderCrossed(s, m);
    }
  }

  lemma TaskHolderCrossed(s: State, n: nat) returns (x: nat, y: nat)
    requires Quiet(s) && n < |s.txns| && s.txns[n].newTask.Some?
    ensures Crossed(s, x, y)
  {
    hide Quiet, Crossed;
    TaskHolderWaits(s, n);
    var m: nat :| m < |s.txns| && m != n && Holds(s.txns[m], WantedBy(s, n).value);
    if WantedBy(s, n).value.EscrowRow? {
      x, y := EscrowHolderCrossed(s, m);
    } else {
      x, y := DisputeHolderCrossed(s, m);
    }
  }

  /** As long as a transaction is unfinished, some transaction can run its next statement,
      unless two of them are crossed. When inserts fail at once, this needs nothing of the
      rows; when they wait, it needs only what every reachable world has. */
  lemma OnlyCrossedDeadlock(ss: seq<State>, i: nat, n: nat) returns (x: nat, y: nat)
    requires IsRun(ss) && i < |ss| && Unfinished(ss[i], n)
    requires ss[0].patient ==> PlausibleRows(ss[0])
    ensures Ready(ss[i], x) || Crossed(ss[i], x, y)
  {
    hide IsRun, Crossed;
    var s := ss[i];
    InRun(ss, i);
    if m: nat :| Ready(s, m) {
      x, y := m, m;
    } else {
      hide Inv;
      assert !Ready(s, n);
      var m: nat :| m < |s.txns| && m != n && Holds(s.txns[m], WantedBy(s, n).value);
      match WantedBy(s, n).value
      case EscrowRow(_) => x, y := EscrowHolderCrossed(s, m);
      case TaskRow(_) => x, y := TaskHolderCrossed(s, m);
      case DisputeRow(_) => x, y := DisputeHolderCrossed(s, m);
      case ProfileRow(_) =>
        QuietAt(s, m);
        x, y := EscrowHolderCrossed(s, m);
    }
  }

  lemma InRun(ss: seq<State>, i: nat)
    requires IsRun(ss) && i < |ss|
    ensures Inv(ss[i]) && ss[i].patient == ss[0].patient && (PlausibleRows(ss[0]) ==> PlausibleRows(ss[i]))
  {
    hide IsRun, Inv, PlausibleRows;
    RunInv(ss, i);
    if PlausibleRows(ss[0]) {
      RunPlausible(ss, i);
    }
  }

  /** Crossed transactions wait for each other until one of them is rolled back. */
  lemma CrossedStays(s: State, v: State, n: nat, m: nat)
    requires Inv(s) && Next(s, v) && Crossed(s, n, m)
    ensures !Ready(s, n) && !Ready(s, m)
    ensures |v.txns| == |s.txns|
    ensures Crossed(v, n, m) || v == Abort(s, n) || v == Abort(s, m)
  {
    hide Inv, Next;
    var t := s.txns[n].kind.t;
    CrossedWait(s, n, m);
    if v != Abort(s, n) && v != Abort(s, m) {
      OthersMove(s, v, n, m);
      CrossedLasts(s, v, n, m);
    }
  }

  lemma CrossedWait(s: State, n: nat, m: nat)
    requires Crossed(s, n, m)
    ensures !Ready(s, n) && !Ready(s, m)
  {
    hide Wants, Holds;
    assert Locked(s, n, TaskRow(s.txns[n].kind.t)) && Locked(s, m, WantedBy(s, m).value);
  }

  /** The step of a third transaction leaves the crossed ones and what they have locked. */
  lemma OthersMove(s: State, v: State, n: nat, m: nat)
    requires Inv(s) && Next(s, v) && Crossed(s, n, m) && v != Abort(s, n) && v != Abort(s, m)
    ensures |v.txns| == |s.txns| && |v.db| == |s.db| && v.patient == s.patient
    ensures v.txns[n] == s.txns[n] && v.txns[m] == s.txns[m]
    ensures var t := s.txns[n].kind.t;
            && (Holds(s.txns[n], EscrowRow(t)) ==> v.db[t].escrow == s.db[t].escrow)
            && (Holds(s.txns[n], DisputeRow(t)) ==> v.db[t].disputed == s.db[t].disputed)
  {
    hide Wants, Ordered, Moved, Saw;
    CrossedWait(s, n, m);
    if k: nat :| Ready(s, k) && v == Step(s, k) {
      assert Apart(s.txns[k], s.txns[n]);
      var t := s.txns[n].kind.t;
      assert !(Holds(s.txns[k], EscrowRow(t)) && Holds(s.txns[n], EscrowRow(t)));
      assert !(Holds(s.txns[k], DisputeRow(t)) && Holds(s.txns[n], DisputeRow(t)));
    }
  }

  lemma CrossedLasts(s: State, v: State, n: nat, m: nat)
    requires Inv(s) && Crossed(s, n, m)
    requires |v.txns| == |s.txns| && |v.db| == |s.db| && v.patient == s.patient
    requires v.txns[n] == s.txns[n] && v.txns[m] == s.txns[m]
    requires var t := s.txns[n].kind.t;
             && (Holds(s.txns[n], EscrowRow(t)) ==> v.db[t].escrow == s.db[t].escrow)
             && (Holds(s.txns[n], DisputeRow(t)) ==> v.db[t].disputed == s.db[t].disputed)
    ensures Crossed(v, n, m)
  {
    Sound(s, n);
    Sound(s, m);
    hide Inv;
  }

  lemma {:induction false} CrossedForever(ss: seq<State>, i: nat, j: nat, n: nat, m: nat)
    requires IsRun(ss) && i <= j < |ss| && Crossed(ss[i], n, m)
    ensures |ss[j].txns| == |ss[i].txns|
    ensures Crossed(ss[j], n, m) || ss[j].txns[n].pc.Ended? || ss[j].txns[m].pc.Ended?
    decreases j - i
  {
    hide Next, Crossed;
    InCrossed(ss[i], n, m);
    if i == j {
    } else {
      CrossedForever(ss, i, j - 1, n, m);
      RunInv(ss, j - 1);
      EndedStays(ss[j - 1], ss[j], n);
      EndedStays(ss[j - 1], ss[j], m);
      if Crossed(ss[j - 1], n, m) {
        CrossedStays(ss[j - 1], ss[j], n, m);
      }
    }
  }

  lemma InCrossed(s: State, n: nat, m: nat)
    requires Crossed(s, n, m)
    ensures n < |s.txns| && m < |s.txns|
  {
  }

  lemma EndedStays(s: State, v: State, n: nat)
    requires Next(s, v) && n < |s.txns|
    ensures |v.txns| == |s.txns| && (s.txns[n].pc.Ended? ==> v.txns[n].pc.Ended?)
  {
    hide Waits, Moved, Overlay;
  }

  // --- Which pairs cross ---

  /** A kind of transaction without the task and the doer. */
  datatype Shape = AFunding | ACancel | ARelease(confirmed: bool) | ADispute | AResolution(refundPoster: bool)

  function ShapeOf(k: Kind): Shape {
    match k
    case Funding(_) => AFunding
    case CancelOf(_) => ACancel
    case ReleaseOf(_, _, confirmed) => ARelease(confirmed)
    case DisputeOf(_) => ADispute
    case ResolveOf(_, refundPoster) => AResolution(refundPoster)
  }

  /** A confirmed release on the one side, a cancel or a dispute on the other; and, when
      inserts wait, a resolution and a second dispute. */
  predicate Crossing(a: Shape, b: Shape, patient: bool) {
    || (a == ARelease(true) && (b.ACancel? || b.ADispute?))
    || (patient && a.AResolution? && b.ADispute?)
  }

  lemma OneDispute(s: State, n: nat, m: nat)
    requires Inv(s) && n < |s.txns| && m < |s.txns| && n != m && s.txns[n].kind.t == s.txns[m].kind.t
    ensures !(s.txns[n].dispute && s.txns[m].dispute)
  {
    hide Ordered, Saw;
    assert Apart(s.txns[n], s.txns[m]);
    assert !(Holds(s.txns[n], DisputeRow(s.txns[n].kind.t)) && Holds(s.txns[m], DisputeRow(s.txns[n].kind.t)));
  }

  /** From plausible rows no other pair ever crosses. */
  lemma CrossedKinds(ss: seq<State>, i: nat, n: nat, m: nat)
    requires IsRun(ss) && i < |ss| && PlausibleRows(ss[0]) && Crossed(ss[i], n, m)
    ensures Crossing(ShapeOf(ss[i].txns[n].kind), ShapeOf(ss[i].txns[m].kind), ss[0].patient)
  {
    InRun(ss, i);
    assert Plausible(ss[i].db[ss[i].txns[n].kind.t]);
    Sound(ss[i], n);
    Sound(ss[i], m);
    OneDispute(ss[i], n, m);
  }
}
