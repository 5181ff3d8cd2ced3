/** Why one transaction may count as one step: the funding and the cancel transactions,
    statement by statement, with row locks.

    Under READ COMMITTED an UPDATE looks for rows whose committed version meets its WHERE
    clause. A row that does not is skipped without waiting. A row that does is locked
    until the transaction ends; if another transaction holds the lock, the statement waits
    and then checks the clause again on the version that the other one left. A row that
    is locked by another transaction does not change, so waiting and starting afresh come
    to the same thing, and the model has no separate waiting state. Plain reads see
    committed rows and never wait. */
module RowLocks {
  import opened Wrappers
  import opened Rows
  import opened Invariants
  import opened World

  /** The two rows that a funding and a cancel of one task write. */
  datatype Pair = Pair(task: TaskStatus, escrow: Option<Escrow>)

  datatype Kind =
    | Webhook(t: TaskId, payment: Option<PaymentId>)
    | CancelOf(t: TaskId, mode: PaymentMode)

  datatype Point =
    | TaskUpdate
    | TaskRead
    | EscrowUpdate(to: EscrowStatus)
    | HeldUpdate
    | Commit
    | Committed
    | Aborted

  /** A transaction with its uncommitted writes; it holds the locks of the rows it wrote. */
  datatype Txn = Txn(kind: Kind, pc: Point, newTask: Option<TaskStatus>, newEscrow: Option<Escrow>)

  /** The committed rows, the transactions, and the committed ones in commit order. */
  datatype State = State(db: seq<Pair>, txns: seq<Txn>, log: seq<Kind>)

  predicate HasStatus(p: Pair, s: EscrowStatus) {
    p.escrow.Some? && p.escrow.value.status == s
  }

  // --- Serial execution ---

  function Capture(p: Pair, to: EscrowStatus, payment: Option<PaymentId>): Option<Escrow> {
    if HasStatus(p, Pending)
    then Some(p.escrow.value.(status := to, paymentId := Noted(p.escrow.value.paymentId, payment))) else p.escrow
  }

  /** A whole transaction at once. */
  function Serial(p: Pair, k: Kind): Pair {
    match k
    case Webhook(_, payment) =>
      if p.task == PendingPayment then Pair(Open, Capture(p, Held, payment))
      else Pair(p.task, Capture(p, if p.task == Cancelled then RefundPending else Held, payment))
    case CancelOf(_, mode) =>
      if !Cancellable(p.task) then p
      else Pair(Cancelled, if mode == EscrowMode && HasStatus(p, Held)
                           then Some(p.escrow.value.(status := RefundPending)) else p.escrow)
  }

  function SerialOn(db: seq<Pair>, k: Kind): seq<Pair> {
    if k.t < |db| then db[k.t := Serial(db[k.t], k)] else db
  }

  function SerialAll(db: seq<Pair>, ks: seq<Kind>): seq<Pair> {
    if ks == [] then db else SerialOn(SerialAll(db, ks[..|ks| - 1]), ks[|ks| - 1])
  }

  function Project(c: Case): Pair {
    Pair(c.task.status, c.escrow)
  }

  /** Serial execution is what the other modules take one transaction to do. */
  lemma SerialIsTransaction(c: Case, h: HandlerId, t: TaskId, payment: Option<PaymentId>, mode: PaymentMode)
    ensures Project(ApplyEscrowPayment(c, h, payment).rows) == Serial(Project(c), Webhook(t, payment))
    ensures Project(CancelTask(c, mode).rows) == Serial(Project(c), CancelOf(t, mode))
    ensures CancelTask(c, mode).matched <==> Cancellable(Project(c).task)
  {
  }

  // --- Statements ---

  predicate Unfinished(x: Txn) {
    !x.pc.Committed? && !x.pc.Aborted?
  }

  predicate TaskLocked(s: State, n: nat, t: TaskId) {
    exists m: nat :: m < |s.txns| && m != n && s.txns[m].kind.t == t && s.txns[m].newTask.Some?
  }

  predicate EscrowLocked(s: State, n: nat, t: TaskId) {
    exists m: nat :: m < |s.txns| && m != n && s.txns[m].kind.t == t && s.txns[m].newEscrow.Some?
  }

  /** The WHERE clause of the statement at hand, on the committed rows. */
  predicate TaskMatches(p: Pair, k: Kind) {
    if k.Webhook? then p.task == PendingPayment else Cancellable(p.task)
  }

  predicate EscrowMatches(p: Pair, k: Kind) {
    HasStatus(p, if k.Webhook? then Pending else Held)
  }

  predicate InRange(s: State, n: nat) {
    n < |s.txns| && s.txns[n].kind.t < |s.db|
  }

  predicate Waits(s: State, n: nat)
    requires InRange(s, n)
  {
    var x := s.txns[n];
    var p := s.db[x.kind.t];
    match x.pc
    case TaskUpdate => TaskMatches(p, x.kind) && TaskLocked(s, n, x.kind.t)
    case EscrowUpdate(_) => EscrowMatches(p, x.kind) && EscrowLocked(s, n, x.kind.t)
    case HeldUpdate => EscrowMatches(p, x.kind) && EscrowLocked(s, n, x.kind.t)
    case _ => false
  }

  predicate Ready(s: State, n: nat) {
    InRange(s, n) && Unfinished(s.txns[n]) && !Waits(s, n)
  }

  /** A transaction after its next statement, its commit apart. */
  function Moved(x: Txn, p: Pair): Txn {
    match x.pc
    case TaskUpdate =>
      if x.kind.Webhook? then
        if TaskMatches(p, x.kind) then x.(pc := EscrowUpdate(Held), newTask := Some(Open)) else x.(pc := TaskRead)
      else
        if TaskMatches(p, x.kind)
        then x.(pc := if x.kind.mode == EscrowMode then HeldUpdate else Commit, newTask := Some(Cancelled))
        else x.(pc := Aborted)
    case TaskRead => x.(pc := EscrowUpdate(if p.task == Cancelled then RefundPending else Held))
    case EscrowUpdate(to) =>
      x.(pc := Commit,
         newEscrow := if EscrowMatches(p, x.kind) && x.kind.Webhook? then Capture(p, to, x.kind.payment) else None)
    case HeldUpdate =>
      x.(pc := Commit,
         newEscrow := if EscrowMatches(p, x.kind) then Some(p.escrow.value.(status := RefundPending)) else None)
    case _ => x
  }

  /** The committed rows with the writes of a transaction over them. */
  function Overlay(p: Pair, x: Txn): Pair {
    Pair(if x.newTask.Some? then x.newTask.value else p.task, if x.newEscrow.Some? then x.newEscrow else p.escrow)
  }

  function Finished(x: Txn, pc: Point): Txn {
    x.(pc := pc, newTask := None, newEscrow := None)
  }

  function Step(s: State, n: nat): State
    requires Ready(s, n)
  {
    var x := s.txns[n];
    var p := s.db[x.kind.t];
    if x.pc.Commit? then
      State(s.db[x.kind.t := Overlay(p, x)], s.txns[n := Finished(x, Committed)], s.log + [x.kind])
    else s.(txns := s.txns[n := Moved(x, p)])
  }

  /** A connection may be lost at any statement. */
  function Abort(s: State, n: nat): State
    requires n < |s.txns|
  {
    s.(txns := s.txns[n := Finished(s.txns[n], Aborted)])
  }

  ghost predicate Next(s: State, v: State) {
    || (exists n: nat :: Ready(s, n) && v == Step(s, n))
    || (exists n: nat :: n < |s.txns| && Unfinished(s.txns[n]) && v == Abort(s, n))
  }

  predicate Initial(s: State) {
    && s.log == []
    && forall n :: 0 <= n < |s.txns| ==> s.txns[n] == Txn(s.txns[n].kind, TaskUpdate, None, None) && InRange(s, n)
  }

  ghost predicate IsRun(ss: seq<State>) {
    |ss| > 0 && Initial(ss[0]) && forall i :: 0 <= i < |ss| - 1 ==> Next(ss[i], ss[i + 1])
  }

  // --- The invariant ---

  /** The row that would let a funding hold money behind the back of a cancel. */
  predicate Exposed(p: Pair) {
    HasStatus(p, Pending) && Cancellable(p.task) && p.task != PendingPayment
  }

  predicate NoneExposed(db: seq<Pair>) {
    forall t :: 0 <= t < |db| ==> !Exposed(db[t])
  }

  /** No cancel can reach the task any more, nor has one. */
  predicate BeyondCancel(s: TaskStatus) {
    !Cancellable(s) && s != Cancelled
  }

  /** What a transaction knows of the committed rows from its locks and its reads. */
  predicate WebhookInv(p: Pair, x: Txn)
    requires x.kind.Webhook?
  {
    match x.pc
    case TaskUpdate => x.newTask.None? && x.newEscrow.None?
    case TaskRead => x.newTask.None? && x.newEscrow.None? && p.task != PendingPayment
    case EscrowUpdate(to) =>
      && x.newEscrow.None?
      && if x.newTask.Some? then x.newTask.value == Open && p.task == PendingPayment && to == Held
         else p.task != PendingPayment
              && (if p.task == Cancelled && to == RefundPending then true
                  else to == Held && (!HasStatus(p, Pending) || BeyondCancel(p.task)))
    case HeldUpdate => false
    case Commit =>
      && (if x.newTask.Some? then x.newTask.value == Open && p.task == PendingPayment else p.task != PendingPayment)
      && (if x.newEscrow.None? then !HasStatus(p, Pending)
          else HasStatus(p, Pending)
               && x.newEscrow == Capture(p, if p.task == Cancelled then RefundPending else Held, x.kind.payment)
               && (x.newTask.Some? || p.task == Cancelled || BeyondCancel(p.task)))
    case _ => x.newTask.None? && x.newEscrow.None?
  }

  predicate CancelInv(p: Pair, x: Txn)
    requires x.kind.CancelOf?
  {
    match x.pc
    case TaskUpdate => x.newTask.None? && x.newEscrow.None?
    case TaskRead => false
    case EscrowUpdate(_) => false
    case HeldUpdate => x.newTask == Some(Cancelled) && Cancellable(p.task)
      && x.newEscrow.None? && x.kind.mode == EscrowMode
    case Commit =>
      && x.newTask == Some(Cancelled) && Cancellable(p.task)
      && (if x.newEscrow.None? then x.kind.mode == CashMode || !HasStatus(p, Held)
          else x.kind.mode == EscrowMode && HasStatus(p, Held)
               && x.newEscrow == Some(p.escrow.value.(status := RefundPending)))
    case _ => x.newTask.None? && x.newEscrow.None?
  }

  predicate TxnInv(p: Pair, x: Txn) {
    if x.kind.Webhook? then WebhookInv(p, x) else CancelInv(p, x)
  }

  /** Two transactions never hold the same lock. */
  predicate Apart(x: Txn, y: Txn) {
    x.kind.t == y.kind.t ==> (x.newTask.None? || y.newTask.None?) && (x.newEscrow.None? || y.newEscrow.None?)
  }

  /** Locks are held from the statement that takes them to the commit, task before escrow. */
  predicate Ordered(x: Txn) {
    && (x.newTask.Some? ==> x.pc.EscrowUpdate? || x.pc.HeldUpdate? || x.pc.Commit?)
    && (x.newEscrow.Some? ==> x.pc.Commit?)
  }

  /** What holds in every run, whatever the rows were. */
  ghost predicate LockInv(s: State) {
    && (forall n :: 0 <= n < |s.txns| ==> InRange(s, n) && Ordered(s.txns[n]))
    && (forall n, m :: 0 <= n < |s.txns| && 0 <= m < |s.txns| && n != m ==> Apart(s.txns[n], s.txns[m]))
  }

  ghost predicate Inv(s: State) {
    && LockInv(s) && NoneExposed(s.db)
    && (forall n :: 0 <= n < |s.txns| ==> InRange(s, n) && TxnInv(s.db[s.txns[n].kind.t], s.txns[n]))
  }

  // --- No deadlock ---

  /** A lock is taken only by a statement that found it free. */
  lemma MovedLocks(x: Txn, p: Pair)
    requires Ordered(x)
    ensures Ordered(Moved(x, p)) && Moved(x, p).kind == x.kind
    ensures Moved(x, p).newTask.Some? && x.newTask.None? ==> x.pc.TaskUpdate? && TaskMatches(p, x.kind)
    ensures Moved(x, p).newEscrow.Some? && x.newEscrow.None? ==>
              (x.pc.EscrowUpdate? || x.pc.HeldUpdate?) && EscrowMatches(p, x.kind)
  {
  }

  lemma StaysApart(s: State, n: nat, m: nat)
    requires LockInv(s) && Ready(s, n) && m < |s.txns| && m != n
    ensures Apart(Moved(s.txns[n], s.db[s.txns[n].kind.t]), s.txns[m])
  {
    hide Moved;
    var x := s.txns[n];
    MovedLocks(x, s.db[x.kind.t]);
    assert Apart(x, s.txns[m]);
  }

  lemma StepKeepsLocks(s: State, n: nat)
    requires LockInv(s) && Ready(s, n)
    ensures LockInv(Step(s, n))
  {
    hide Moved, Overlay;
    var v := Step(s, n);
    if !s.txns[n].pc.Commit? {
      MovedLocks(s.txns[n], s.db[s.txns[n].kind.t]);
      forall m | 0 <= m < |v.txns| && m != n ensures Apart(v.txns[n], v.txns[m]) {
        StaysApart(s, n, m);
      }
    }
  }

  lemma NextKeepsLocks(s: State, v: State)
    requires LockInv(s) && Next(s, v)
    ensures LockInv(v)
  {
    hide LockInv, Step, Abort, Ready;
    if n: nat :| Ready(s, n) && v == Step(s, n) {
      StepKeepsLocks(s, n);
    } else {
      var n: nat :| n < |s.txns| && Unfinished(s.txns[n]) && v == Abort(s, n);
      AbortKeepsLocks(s, n);
    }
  }

  lemma AbortKeepsLocks(s: State, n: nat)
    requires LockInv(s) && n < |s.txns|
    ensures LockInv(Abort(s, n))
  {
  }

  lemma {:induction false} RunLocks(ss: seq<State>, i: nat)
    requires IsRun(ss) && i < |ss|
    ensures LockInv(ss[i])
  {
    hide Next;
    if i == 0 {
    } else {
      RunLocks(ss, i - 1);
      NextKeepsLocks(ss[i - 1], ss[i]);
    }
  }

  /** The holder of an escrow lock has nothing left but its commit. */
  lemma EscrowHolderReady(s: State, n: nat)
    requires LockInv(s) && n < |s.txns| && s.txns[n].newEscrow.Some?
    ensures Ready(s, n)
  {
    assert InRange(s, n) && Ordered(s.txns[n]);
  }

  /** The holder of a task lock waits for an escrow lock at most. */
  lemma TaskHolderReady(s: State, n: nat) returns (m: nat)
    requires LockInv(s) && n < |s.txns| && s.txns[n].newTask.Some?
    ensures Ready(s, m)
  {
    m := n;
    assert InRange(s, n) && Ordered(s.txns[n]);
    if Waits(s, n) {
      m :| m < |s.txns| && m != n && s.txns[m].kind.t == s.txns[n].kind.t && s.txns[m].newEscrow.Some?;
      EscrowHolderReady(s, m);
    }
  }

  /** Whatever the rows were, as long as a transaction is unfinished some transaction can
      run its next statement: nothing ever deadlocks, and nothing has to be rolled back. */
  lemma NeverDeadlocks(ss: seq<State>, i: nat, n: nat) returns (m: nat)
    requires IsRun(ss) && i < |ss| && n < |ss[i].txns| && Unfinished(ss[i].txns[n])
    ensures Ready(ss[i], m)
  {
    hide Next;
    var s := ss[i];
    RunLocks(ss, i);
    m := n;
    assert InRange(s, n);
    if Waits(s, n) {
      var t := s.txns[n].kind.t;
      if s.txns[n].pc.TaskUpdate? {
        var k: nat :| k < |s.txns| && k != n && s.txns[k].kind.t == t && s.txns[k].newTask.Some?;
        m := TaskHolderReady(s, k);
      } else {
        m :| m < |s.txns| && m != n && s.txns[m].kind.t == t && s.txns[m].newEscrow.Some?;
        EscrowHolderReady(s, m);
      }
    }
  }

  /** How many statements a transaction may still run. */
  function Work(x: Txn): nat {
    match x.pc
    case TaskUpdate => 4
    case TaskRead => 3
    case EscrowUpdate(_) => 2
    case HeldUpdate => 2
    case Commit => 1
    case _ => 0
  }

  function TotalWork(xs: seq<Txn>): nat {
    if xs == [] then 0 else TotalWork(xs[..|xs| - 1]) + Work(xs[|xs| - 1])
  }

  lemma {:induction false} WorkUpdate(xs: seq<Txn>, n: nat, x: Txn)
    requires n < |xs|
    ensures TotalWork(xs[n := x]) == TotalWork(xs) - Work(xs[n]) + Work(x)
  {
    var last := |xs| - 1;
    if n < last {
      WorkUpdate(xs[..last], n, x);
      assert xs[n := x][..last] == xs[..last][n := x];
    } else {
      assert xs[n := x][..last] == xs[..last];
    }
  }

  lemma NextWorks(s: State, v: State)
    requires Next(s, v)
    ensures TotalWork(v.txns) < TotalWork(s.txns) && |v.txns| == |s.txns|
  {
    hide Waits, Overlay, TotalWork, Capture;
    if n: nat :| Ready(s, n) && v == Step(s, n) {
      WorkUpdate(s.txns, n, v.txns[n]);
    } else {
      var n: nat :| n < |s.txns| && Unfinished(s.txns[n]) && v == Abort(s, n);
      WorkUpdate(s.txns, n, v.txns[n]);
    }
  }

  lemma {:induction false} AllFresh(xs: seq<Txn>)
    requires forall n :: 0 <= n < |xs| ==> xs[n].pc.TaskUpdate?
    ensures TotalWork(xs) == 4 * |xs|
  {
    if xs == [] {
    } else {
      AllFresh(xs[..|xs| - 1]);
    }
  }

  /** Every run is over after at most four statements for each transaction. */
  lemma {:induction false} RunsEnd(ss: seq<State>, i: nat)
    requires IsRun(ss) && i < |ss|
    ensures i + TotalWork(ss[i].txns) <= 4 * |ss[0].txns|
  {
    hide Next;
    if i == 0 {
      AllFresh(ss[0].txns);
    } else {
      RunsEnd(ss, i - 1);
      NextWorks(ss[i - 1], ss[i]);
    }
  }

  // --- What a transaction knows ---

  /** A statement leaves its transaction what the next one relies on. */
  lemma MovedKeeps(p: Pair, x: Txn)
    requires TxnInv(p, x) && !Exposed(p)
    ensures TxnInv(p, Moved(x, p)) && Moved(x, p).kind == x.kind
  {
  }

  /** At its commit, a transaction has written what it would write if it ran now, at once. */
  lemma CommitIsSerial(p: Pair, x: Txn)
    requires TxnInv(p, x) && x.pc.Commit? && !Exposed(p)
    ensures Overlay(p, x) == Serial(p, x.kind) && !Exposed(Overlay(p, x))
  {
  }

  /** A commit takes nothing from another transaction on the same task. */
  lemma CommitLeaves(p: Pair, x: Txn, y: Txn)
    requires TxnInv(p, x) && TxnInv(p, y) && x.pc.Commit? && !Exposed(p)
    requires x.kind.t == y.kind.t && Apart(x, y)
    ensures TxnInv(Overlay(p, x), y)
  {
  }

  lemma FinishedInv(p: Pair, x: Txn, pc: Point)
    requires pc.Committed? || pc.Aborted?
    ensures TxnInv(p, Finished(x, pc))
  {
  }

  lemma StepKeeps(s: State, n: nat)
    requires Inv(s) && Ready(s, n)
    ensures Inv(Step(s, n))
    ensures Step(s, n).db == (if s.txns[n].pc.Commit? then SerialOn(s.db, s.txns[n].kind) else s.db)
  {
    hide TxnInv, Exposed, Serial, Overlay, Moved, LockInv;
    StepKeepsLocks(s, n);
    var x := s.txns[n];
    var p := s.db[x.kind.t];
    var v := Step(s, n);
    if x.pc.Commit? {
      CommitIsSerial(p, x);
      forall m | 0 <= m < |v.txns| ensures InRange(v, m) && TxnInv(v.db[v.txns[m].kind.t], v.txns[m]) {
        assert InRange(s, m);
        if m == n {
          FinishedInv(v.db[x.kind.t], x, Committed);
        } else if s.txns[m].kind.t == x.kind.t {
          AreApart(s, n, m);
          CommitLeaves(p, x, s.txns[m]);
        }
      }
    } else {
      MovedKeeps(p, x);
    }
  }

  lemma AreApart(s: State, n: nat, m: nat)
    requires LockInv(s) && n < |s.txns| && m < |s.txns| && n != m
    ensures Apart(s.txns[n], s.txns[m])
  {
  }

  lemma AbortKeeps(s: State, n: nat)
    requires Inv(s) && n < |s.txns|
    ensures Inv(Abort(s, n))
  {
    hide TxnInv, Exposed, LockInv;
    AbortKeepsLocks(s, n);
    assert LockInv(s);
    InRangeOf(s, n);
    FinishedInv(s.db[s.txns[n].kind.t], s.txns[n], Aborted);
  }

  lemma InRangeOf(s: State, n: nat)
    requires LockInv(s) && n < |s.txns|
    ensures InRange(s, n)
  {
  }

  // --- Serial order ---

  lemma {:induction false} RunInv(ss: seq<State>, i: nat)
    requires IsRun(ss) && NoneExposed(ss[0].db) && i < |ss|
    ensures Inv(ss[i]) && ss[i].db == SerialAll(ss[0].db, ss[i].log)
  {
    hide Inv, Step, Abort, NoneExposed, SerialOn, Ready;
    if i == 0 {
      InitialInv(ss[0]);
    } else {
      RunInv(ss, i - 1);
      NextKeeps(ss[i - 1], ss[i], ss[0].db);
    }
  }

  lemma InitialInv(s: State)
    requires Initial(s) && NoneExposed(s.db)
    ensures Inv(s)
  {
    assert forall n :: 0 <= n < |s.txns| ==> InRange(s, n);
  }

  lemma NextKeeps(s: State, v: State, db: seq<Pair>)
    requires Inv(s) && Next(s, v) && s.db == SerialAll(db, s.log)
    ensures Inv(v) && v.db == SerialAll(db, v.log)
  {
    hide Inv, NoneExposed, SerialOn;
    if n: nat :| Ready(s, n) && v == Step(s, n) {
      StepKeeps(s, n);
      if s.txns[n].pc.Commit? {
        assert v.log[..|v.log| - 1] == s.log;
      }
    } else {
      var n: nat :| n < |s.txns| && Unfinished(s.txns[n]) && v == Abort(s, n);
      AbortKeeps(s, n);
    }
  }

  /** Some serial order of the committed transactions explains the rows. */
  ghost predicate Explained(before: seq<Pair>, after: seq<Pair>, committed: seq<Kind>) {
    exists order: seq<Kind> :: multiset(order) == multiset(committed) && after == SerialAll(before, order)
  }

  function KindOf(x: Txn): multiset<Kind> {
    if x.pc.Committed? then multiset{x.kind} else multiset{}
  }

  /** The kinds of the transactions that committed. */
  function CommittedKinds(xs: seq<Txn>): multiset<Kind> {
    if xs == [] then multiset{}
    else CommittedKinds(xs[..|xs| - 1]) + KindOf(xs[|xs| - 1])
  }

  lemma KindsOfLast(xs: seq<Txn>)
    requires xs != []
    ensures CommittedKinds(xs) == CommittedKinds(xs[..|xs| - 1]) + KindOf(xs[|xs| - 1])
  {
  }

  lemma Swap(a: multiset<Kind>, b: multiset<Kind>, c: multiset<Kind>, d: multiset<Kind>)
    requires d == a + b
    ensures d + c == a + c + b
  {
  }

  /** An update before the last place, and one at it. */
  lemma UpdateThenTake(xs: seq<Txn>, n: nat, x: Txn)
    requires n < |xs|
    ensures n < |xs| - 1 ==> xs[n := x][..|xs| - 1] == xs[..|xs| - 1][n := x]
    ensures n == |xs| - 1 ==> xs[n := x][..|xs| - 1] == xs[..|xs| - 1]
  {
  }

  lemma {:induction false} KindsUpdate(xs: seq<Txn>, n: nat, x: Txn)
    requires n < |xs| && !xs[n].pc.Committed?
    ensures CommittedKinds(xs[n := x]) == CommittedKinds(xs) + KindOf(x)
  {
    var last := |xs| - 1;
    UpdateThenTake(xs, n, x);
    KindsOfLast(xs);
    KindsOfLast(xs[n := x]);
    if n < last {
      KindsUpdate(xs[..last], n, x);
      hide *;
      Swap(CommittedKinds(xs[..last]), KindOf(x), KindOf(xs[last]), CommittedKinds(xs[n := x][..last]));
    } else {
      Uncommitted(xs[n]);
    }
  }

  lemma Uncommitted(x: Txn)
    requires !x.pc.Committed?
    ensures KindOf(x) == multiset{}
  {
  }

  lemma {:induction false} NoneCommitted(xs: seq<Txn>)
    requires forall n :: 0 <= n < |xs| ==> xs[n].pc.TaskUpdate?
    ensures CommittedKinds(xs) == multiset{}
  {
    if xs == [] {
    } else {
      NoneCommitted(xs[..|xs| - 1]);
    }
  }

  lemma NextLogs(s: State, v: State)
    requires Next(s, v) && multiset(s.log) == CommittedKinds(s.txns)
    ensures multiset(v.log) == CommittedKinds(v.txns)
  {
    hide Waits, Moved, Overlay, CommittedKinds;
    if n: nat :| Ready(s, n) && v == Step(s, n) {
      MovedIsUncommitted(s.txns[n], s.db[s.txns[n].kind.t]);
      KindsUpdate(s.txns, n, v.txns[n]);
    } else {
      var n: nat :| n < |s.txns| && Unfinished(s.txns[n]) && v == Abort(s, n);
      KindsUpdate(s.txns, n, v.txns[n]);
    }
  }

  lemma MovedIsUncommitted(x: Txn, p: Pair)
    requires Unfinished(x)
    ensures !Moved(x, p).pc.Committed?
  {
  }

  /** The log of a run holds exactly the transactions that committed. */
  lemma {:induction false} LogIsCommitted(ss: seq<State>, i: nat)
    requires IsRun(ss) && i < |ss|
    ensures multiset(ss[i].log) == CommittedKinds(ss[i].txns)
  {
    hide Next;
    if i == 0 {
      NoneCommitted(ss[0].txns);
    } else {
      LogIsCommitted(ss, i - 1);
      NextLogs(ss[i - 1], ss[i]);
    }
  }

  /** Unless a row was exposed at the start, the committed rows of every state of every run
      are what the committed transactions leave one after the other, in commit order. */
  lemma CommitOrderIsSerial(ss: seq<State>, i: nat)
    requires IsRun(ss) && NoneExposed(ss[0].db) && i < |ss|
    ensures ss[i].db == SerialAll(ss[0].db, ss[i].log)
    ensures Explained(ss[0].db, ss[i].db, ss[i].log)
  {
    hide IsRun;
    RunInv(ss, i);
  }

  // --- The exact condition ---

  /** An exposed row, a funding and a cancel: the funding sees an assigned task and holds
      the money, the cancel does not see it, and both commit. */
  ghost function Bad(db: seq<Pair>, t: TaskId): seq<State>
    requires t < |db| && Exposed(db[t])
  {
    var w, c := Txn(Webhook(t, Some(7)), TaskUpdate, None, None), Txn(CancelOf(t, EscrowMode), TaskUpdate, None, None);
    var held := Capture(db[t], Held, Some(7));
    var w3 := w.(pc := Commit, newEscrow := held);
    var c1 := c.(pc := HeldUpdate, newTask := Some(Cancelled));
    var funded := db[t := Pair(db[t].task, held)];
    [State(db, [w, c], []),
     State(db, [w.(pc := TaskRead), c], []),
     State(db, [w.(pc := EscrowUpdate(Held)), c], []),
     State(db, [w3, c], []),
     State(db, [w3, c1], []),
     State(db, [w3, c1.(pc := Commit)], []),
     State(funded, [Finished(w3, Committed), c1.(pc := Commit)], [w.kind]),
     State(funded[t := Pair(Cancelled, held)], [Finished(w3, Committed), Finished(c1, Committed)], [w.kind, c.kind])]
  }

  lemma BadIsRun(db: seq<Pair>, t: TaskId)
    requires t < |db| && Exposed(db[t])
    ensures IsRun(Bad(db, t))
  {
    var ss := Bad(db, t);
    forall i | 0 <= i < 7 ensures Next(ss[i], ss[i + 1]) {
      var n: nat := if i == 3 || i == 4 || i == 6 then 1 else 0;
      assert Ready(ss[i], n) && ss[i + 1] == Step(ss[i], n);
    }
  }

  lemma BadIsUnexplained(db: seq<Pair>, t: TaskId)
    requires t < |db| && Exposed(db[t])
    ensures !Explained(db, Bad(db, t)[7].db, Bad(db, t)[7].log)
  {
    var w, c := Webhook(t, Some(7)), CancelOf(t, EscrowMode);
    forall order: seq<Kind> | multiset(order) == multiset([w, c])
      ensures Bad(db, t)[7].db != SerialAll(db, order)
    {
      TwoOrders(order, w, c);
      assert order[..1] == [order[0]] && [order[0]][..0] == [];
      assert SerialAll(db, [order[0]]) == SerialOn(db, order[0]);
      assert SerialAll(db, order) == SerialOn(SerialOn(db, order[0]), order[1]);
      assert HasStatus(SerialAll(db, order)[t], RefundPending);
      assert HasStatus(Bad(db, t)[7].db[t], Held);
    }
  }

  lemma TwoOrders(order: seq<Kind>, w: Kind, c: Kind)
    requires multiset(order) == multiset([w, c]) && w != c
    ensures order == [w, c] || order == [c, w]
  {
    assert |order| == |multiset(order)| == 2;
    assert order == [order[0], order[1]];
    assert order[0] in multiset(order) && order[1] in multiset(order);
    assert multiset(order)[w] == 1 && multiset(order)[c] == 1;
  }

  ghost predicate AlwaysSerializable(db: seq<Pair>) {
    forall ss: seq<State>, i: nat :: IsRun(ss) && i < |ss| && ss[0].db == db ==> Explained(db, ss[i].db, ss[i].log)
  }

  /** Every run of fundings and cancels on these rows is serializable exactly when no row
      is exposed: no escrow is PENDING on a task that is open, assigned or in progress. */
  lemma SerializableExactly(db: seq<Pair>)
    ensures AlwaysSerializable(db) <==> NoneExposed(db)
  {
    hide IsRun, Explained, Exposed;
    if NoneExposed(db) {
      forall ss: seq<State>, i: nat | IsRun(ss) && i < |ss| && ss[0].db == db
        ensures Explained(db, ss[i].db, ss[i].log)
      {
        CommitOrderIsSerial(ss, i);
      }
    } else {
      var t :| 0 <= t < |db| && Exposed(db[t]);
      BadIsRun(db, t);
      BadIsUnexplained(db, t);
      assert Bad(db, t)[0].db == db;
    }
  }

  /** The rows of a reachable world are never exposed. */
  lemma ReachableIsUnexposed(w: World)
    requires Reaches(w)
    ensures NoneExposed(seq(|w.cases|, t requires 0 <= t < |w.cases| => Project(w.cases[t])))
  {
    hide Reaches, PaymentInv, HeldInv, ReleaseInv, RefundInv, AssignmentInv, HandlersInv, CountersInv;
    ReachesInv(w);
  }
}
