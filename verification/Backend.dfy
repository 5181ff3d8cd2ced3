/** The services as methods over one database, each handler running alone.

    A method changes the rows statement by statement, and its postcondition equates the
    new tables with what the step machine of `Handlers` leaves when it runs alone, and says
    what that is with the predicates of `Requests`, which know nothing of either. `Valid`
    says that the tables are those of a reachable world, so whatever holds of all runs
    holds after any sequence of these calls, and that they also keep the invariant of
    handlers that run alone. */
module Backend {
  import opened Wrappers
  import opened Rows
  import opened Handlers
  import opened Invariants
  import opened World
  import opened Serial
  import opened Points
  import opened Requests
  import opened Sweeps
  import Fees
  import Ledger
  import Orders

  /** `Internal` is a database error that no handler catches. */
  datatype Error = NotFound | BadRequest | Forbidden | Conflict | Internal
  datatype Checkout = Checkout(orderId: string, amount: int)

  /** The payment provider during one call: its credentials, and its answer to a refund. */
  datatype Provider = Provider(configured: bool, accepts: bool)

  class Services {
    var cases: seq<Case>
    var profiles: map<UserId, Profile>
    var now: Time

    ghost function Tables(): World
      reads this
    {
      World(cases, map[], profiles, now)
    }

    ghost predicate Valid()
      reads this
    {
      Reaches(Tables()) && AllAtomic(cases)
    }

    function With(p: Provider, doer: Option<UserId>): Input
      reads this
    {
      Input(now, p.configured, p.accepts, if doer.Some? then Lookup(profiles, doer.value) else None)
    }

    /** The rows after request `r` to task `t` was served alone. */
    ghost function After(t: TaskId, r: Request, i: Input): seq<Case>
      reads this
    {
      if t < |cases| then cases[t := Serve(0, cases[t], r, i)] else cases
    }

    constructor ()
      ensures Valid() && cases == [] && profiles == map[]
    {
      cases, profiles, now := [], map[], 0;
      new;
      var ws, ls: seq<Label> := [EMPTY], [];
      assert IsRun(ws, ls) && ws[|ls|] == EMPTY;
    }

    method Advance(later: Time)
      requires Valid() && now <= later
      modifies this`now
      ensures Valid() && now == later
    {
      Extend(Tables(), Tick(later));
      now := later;
    }

    // --- TasksService ---

    method CreateTask(uuid: string, posterId: UserId, categoryActive: bool, budget: int, mode: PaymentMode, tier: Tier,
                      e5: real, e15: real, e85: real) returns (r: Result<TaskId, Error>)
      requires Valid()
      requires Orders.IsUuid(uuid) && forall t :: 0 <= t < |cases| ==> cases[t].task.uuid != uuid
      requires budget >= Fees.MIN_BUDGET && Fees.SmallError(e5) && Fees.SmallError(e15) && Fees.SmallError(e85)
      modifies this`cases
      ensures Valid()
      ensures r.Ok? <==> categoryActive
      ensures r.Err? ==> cases == old(cases)
      ensures r.Ok? ==> r.value == |old(cases)|
      ensures r.Ok? ==> |cases| == |old(cases)| + 1 && cases[..|old(cases)|] == old(cases)
      ensures r.Ok? ==>
                var c := cases[|old(cases)|];
                && c.task == Task(uuid, posterId, None, budget, mode, PendingPayment, tier, None, None)
                && c.escrow == (if mode == EscrowMode
                                then Some(Escrow(Pending, Fees.SplitOf(budget, e5, e15, e85), None, None, None))
                                else None)
                && c.fee == (if mode == CashMode then Some(PostingFee(9900, FeePending, None, None)) else None)
                && c.refund.None? && c.payout.None? && c.dispute.None? && c.trail == NO_TRAIL
      ensures r.Ok? && mode == EscrowMode ==>
                var a := cases[|old(cases)|].escrow.value.amounts;
                && a.budget == budget && a.reserve == a.posterFee && Fees.IsNear(a.posterFee, budget)
                && Fees.IsNear(a.doerFee, 3 * budget) && Fees.IsNear(a.netPayout, 17 * budget)
    {
      if !categoryActive { return Err(NotFound); }
      ghost var w := Tables();
      var t := |cases|;
      var split := Fees.SplitOf(budget, e5, e15, e85);
      cases := cases + [NewCase(uuid, posterId, budget, mode, tier)];
      cases := cases[t := InsertMoneyRow(cases[t], split)];
      Fees.SplitShares(split);
      CreateReaches(w, uuid, posterId, mode, tier, split, Tables());
      return Ok(t);
    }

    method Accept(t: TaskId, doer: UserId) returns (r: Result<Task, Error>)
      requires Valid()
      modifies this`cases
      ensures Valid()
      ensures cases == old(After(t, Request.Accept(doer), With(Provider(false, false), Some(doer))))
      ensures r.Ok? <==>
                && t < |cases| && old(cases)[t].task.status == Open && old(cases)[t].task.posterId != doer
                && Qualified(Lookup(profiles, doer), old(cases)[t].task.requiredTier)
                && (old(cases)[t].task.mode == EscrowMode ==> EscrowIs(old(cases)[t], Held))
      ensures r.Ok? ==> r.value == old(cases)[t].task.(status := Assigned, doerId := Some(doer))
      ensures r.Ok? ==> Leaves(old(cases)[t].(task := r.value), cases[t], SILENT.(accepted := 1))
      ensures r.Err? ==> cases == old(cases)
      ensures r == Err(NotFound) <==> t >= |cases|
      ensures r == Err(Forbidden) <==>
                && t < |cases| && old(cases)[t].task.status == Open
                && (old(cases)[t].task.posterId == doer
                    || !Qualified(Lookup(profiles, doer), old(cases)[t].task.requiredTier))
      ensures r == Err(BadRequest) <==>
                t < |cases| && r != Err(Forbidden) &&
                (old(cases)[t].task.status != Open
                 || (old(cases)[t].task.mode == EscrowMode && !EscrowIs(old(cases)[t], Held)))
    {
      if t >= |cases| { return Err(NotFound); }
      ghost var w, c, i := Tables(), cases[t], With(Provider(false, false), Some(doer));
      var task := cases[t].task;
      hide Solo, Reaches, AllAtomic, CaseInv, Handlers.Advance;
      ServeKeepsProfiles(0, profiles, c, Request.Accept(doer), i);
      OpenHasNoDoer(w, t);
      if task.status != Open {
        return Err(BadRequest);
      }
      if task.posterId == doer {
        return Err(Forbidden);
      }
      AtCheckProfile(0, c, doer, task.requiredTier, task.mode, i);
      if doer !in profiles || !profiles[doer].approved {
        return Err(Forbidden);
      }
      if TierRank(profiles[doer].tier) < TierRank(task.requiredTier) {
        return Err(Forbidden);
      }
      AtCheckFunds(0, c, doer, i);
      AtAssign(0, c, doer, i);
      if task.mode == EscrowMode && !IsHeld(cases[t]) {
        return Err(BadRequest);
      }
      var result := AssignDoer(cases[t], 0, doer);
      cases := cases[t := result.rows];
      cases := cases[t := EmitAccepted(cases[t])];
      ServeReaches(w, t, Request.Accept(doer), i, Tables());
      CasesOf(w);
      AcceptAssigns(0, c, doer, i);
      return Ok(cases[t].task);
    }

    method MarkStarted(t: TaskId, doer: UserId) returns (r: Result<Task, Error>)
      requires Valid()
      modifies this`cases
      ensures Valid()
      ensures cases == old(After(t, Start(doer), With(Provider(false, false), None)))
      ensures r.Ok? <==>
                t < |cases| && old(cases)[t].task.doerId == Some(doer) && old(cases)[t].task.status == Assigned
      ensures r.Ok? ==> r.value == old(cases)[t].task.(status := InProgress)
      ensures r.Ok? ==> Leaves(old(cases)[t].(task := r.value), cases[t], SILENT)
      ensures r.Err? ==> cases == old(cases)
      ensures r == Err(NotFound) <==> t >= |cases|
      ensures r == Err(Forbidden) <==> t < |cases| && old(cases)[t].task.doerId != Some(doer)
      ensures r == Err(BadRequest) <==>
                t < |cases| && old(cases)[t].task.doerId == Some(doer) && old(cases)[t].task.status != Assigned
    {
      if t >= |cases| { return Err(NotFound); }
      ghost var w, i := Tables(), With(Provider(false, false), None);
      var task := cases[t].task;
      if task.doerId != Some(doer) { return Err(Forbidden); }
      if task.status != Assigned { return Err(BadRequest); }
      cases := cases[t := WriteStarted(cases[t])];
      ServeKeepsProfiles(0, profiles, w.cases[t], Start(doer), i);
      ServeReaches(w, t, Start(doer), i, Tables());
      return Ok(cases[t].task);
    }

    method MarkComplete(t: TaskId, doer: UserId) returns (r: Result<Task, Error>)
      requires Valid()
      modifies this`cases
      ensures Valid()
      ensures cases == old(After(t, Complete(doer), With(Provider(false, false), None)))
      ensures r.Ok? <==>
                && t < |cases| && old(cases)[t].task.doerId == Some(doer)
                && (old(cases)[t].task.status == Assigned || old(cases)[t].task.status == InProgress)
      ensures r.Ok? ==> r.value == old(cases)[t].task.(status := Completed, completedAt := Some(now))
      ensures r.Ok? ==> Leaves(old(cases)[t].(task := r.value), cases[t], SILENT)
      ensures r.Err? ==> cases == old(cases)
      ensures r == Err(NotFound) <==> t >= |cases|
      ensures r == Err(Forbidden) <==> t < |cases| && old(cases)[t].task.doerId != Some(doer)
      ensures r == Err(BadRequest) <==>
                && t < |cases| && old(cases)[t].task.doerId == Some(doer)
                && old(cases)[t].task.status != Assigned && old(cases)[t].task.status != InProgress
    {
      if t >= |cases| { return Err(NotFound); }
      ghost var w, i := Tables(), With(Provider(false, false), None);
      var task := cases[t].task;
      if task.doerId != Some(doer) { return Err(Forbidden); }
      if task.status != Assigned && task.status != InProgress { return Err(BadRequest); }
      cases := cases[t := WriteCompleted(cases[t], doer, now)];
      ServeKeepsProfiles(0, profiles, w.cases[t], Complete(doer), i);
      ServeReaches(w, t, Complete(doer), i, Tables());
      return Ok(cases[t].task);
    }

    /** Release the escrow of a task to `worker`; tells whether it was still held. */
    method ReleaseEscrow(t: TaskId, worker: Option<UserId>, cause: Cause) returns (released: bool)
      requires t < |cases|
      modifies this`cases, this`profiles
      ensures var i := old(With(Provider(false, false), None));
              && cases == old(cases)[t := Solo(0, old(cases)[t], ReleaseFunds(worker, cause), i)]
              && profiles == SoloProfiles(0, old(profiles), old(cases)[t], ReleaseFunds(worker, cause), i)
      ensures released == IsHeld(old(cases)[t])
    {
      ghost var c, i := cases[t], With(Provider(false, false), None);
      hide Solo, SoloProfiles, ReleaseHeld, EmitReleased, Handlers.Advance;
      AtReleaseFunds(0, c, worker, cause, i);
      CreditedOnce(0, profiles, c, worker, cause, i);
      var result := ReleaseHeld(cases[t], 0, worker, cause, now);
      if result.matched && worker.Some? && worker.value in profiles {
        var profile := profiles[worker.value];
        profiles := profiles[worker.value := profile.(jobs := profile.jobs + 1)];
      }
      cases := cases[t := result.rows];
      released := result.matched;
      if released {
        PayRelease(t, worker);
      }
    }

    /** What follows a committed release: the payout, and PAYMENT_RELEASED. */
    method PayRelease(t: TaskId, worker: Option<UserId>)
      requires t < |cases|
      modifies this`cases
      ensures cases == old(cases)[t := Solo(0, old(cases)[t], ReadReleased(worker), With(Provider(false, false), None))]
    {
      hide Solo, EmitReleased;
      Unfold(0, cases[t], ReadReleased(worker), With(Provider(false, false), None));
      var amount := if cases[t].escrow.Some? then cases[t].escrow.value.amounts.netPayout else 0;
      if cases[t].escrow.Some? && worker.Some? {
        CreateForEscrowRelease(t, worker.value, amount);
      } else {
        Unfold(0, cases[t], EmitRelease(worker, amount), With(Provider(false, false), None));
      }
      cases := cases[t := EmitReleased(cases[t])];
    }

    method Confirm(t: TaskId, user: UserId) returns (r: Result<Task, Error>)
      requires Valid()
      modifies this`cases, this`profiles
      ensures Valid()
      ensures cases == old(After(t, Request.Confirm(user), With(Provider(false, false), None)))
      ensures r.Ok? <==>
                && t < |cases| && old(cases)[t].task.posterId == user && old(cases)[t].task.status == Completed
                && (old(cases)[t].task.mode == EscrowMode ==> EscrowIs(old(cases)[t], Held))
      ensures r.Ok? ==> r.value == old(cases)[t].task.(confirmedAt := Some(now))
      ensures r.Ok? ==>
                if r.value.mode == EscrowMode then
                  && IsPaidOut(old(cases)[t].(task := r.value), cases[t]) && r.value.doerId.value in old(profiles)
                  && profiles == Counted(old(profiles), r.value.doerId.value)
                else Leaves(old(cases)[t].(task := r.value), cases[t], SILENT) && profiles == old(profiles)
      ensures r.Err? ==> cases == old(cases) && profiles == old(profiles)
      ensures r == Err(NotFound) <==> t >= |cases|
      ensures r == Err(Forbidden) <==> t < |cases| && old(cases)[t].task.posterId != user
      ensures r == Err(BadRequest) <==>
                && t < |cases| && old(cases)[t].task.posterId == user
                && (old(cases)[t].task.status != Completed
                    || (old(cases)[t].task.mode == EscrowMode && !EscrowIs(old(cases)[t], Held)))
    {
      if t >= |cases| { return Err(NotFound); }
      ghost var w, c, i := Tables(), cases[t], With(Provider(false, false), None);
      hide Solo, SoloProfiles, Reaches, AllAtomic, Handlers.Advance, CaseInv, IsPaidOut;
      CasesOf(w);
      ConfirmPays(0, c, user, i);
      var task := cases[t].task;
      if task.posterId != user { return Err(Forbidden); }
      if task.status != Completed { return Err(BadRequest); }
      CompletedHasDoer(w, t);
      ConfirmCounts(0, profiles, c, user, i);
      if task.mode == EscrowMode {
        AtCheckHeld(0, c, user, task.doerId, i);
        if !IsHeld(cases[t]) { return Err(BadRequest); }
        var _ := ReleaseEscrow(t, task.doerId, ByConfirm(user));
      } else {
        AtMarkConfirmed(0, c, i);
        cases := cases[t := WriteConfirmed(cases[t], now)];
      }
      hide ServeProfiles;
      ServeReaches(w, t, Request.Confirm(user), i, Tables());
      return Ok(cases[t].task);
    }

    method Cancel(t: TaskId, user: UserId, p: Provider) returns (r: Result<Task, Error>)
      requires Valid()
      modifies this`cases
      ensures Valid()
      ensures cases == old(After(t, Request.Cancel(user), With(p, None)))
      ensures r.Ok? <==>
                t < |cases| && IsParticipant(old(cases)[t], user) && CanCancel(old(cases)[t].task.status)
      ensures r.Ok? ==> cases[t].task == r.value == old(cases)[t].task.(status := Cancelled)
      ensures r.Ok? ==> IsCancelled(old(cases)[t], cases[t], old(With(p, None)))
      ensures r.Err? ==> cases == old(cases)
      ensures r == Err(NotFound) <==> t >= |cases|
      ensures r == Err(Forbidden) <==> t < |cases| && !IsParticipant(old(cases)[t], user)
      ensures r == Err(BadRequest) <==>
                t < |cases| && IsParticipant(old(cases)[t], user) && !CanCancel(old(cases)[t].task.status)
    {
      if t >= |cases| { return Err(NotFound); }
      ghost var w, c, i := Tables(), cases[t], With(p, None);
      var task := cases[t].task;
      if task.posterId != user && task.doerId != Some(user) { return Err(Forbidden); }
      r := ExecuteCancel(t, task.mode, p);
      if r.Ok? {
        ServeKeepsProfiles(0, profiles, c, Request.Cancel(user), i);
        ServeReaches(w, t, Request.Cancel(user), i, Tables());
      }
    }

    method ForceCancelTask(t: TaskId, p: Provider) returns (r: Result<Task, Error>)
      requires Valid()
      modifies this`cases
      ensures Valid()
      ensures cases == old(After(t, ForceCancel, With(p, None)))
      ensures r.Ok? <==> t < |cases| && CanCancel(old(cases)[t].task.status)
      ensures r.Ok? ==> cases[t].task == r.value == old(cases)[t].task.(status := Cancelled)
      ensures r.Ok? ==> IsCancelled(old(cases)[t], cases[t], old(With(p, None)))
      ensures r.Err? ==> cases == old(cases)
      ensures r == Err(NotFound) <==> t >= |cases|
      ensures r == Err(BadRequest) <==> t < |cases| && !CanCancel(old(cases)[t].task.status)
    {
      if t >= |cases| { return Err(NotFound); }
      ghost var w, c, i := Tables(), cases[t], With(p, None);
      r := ExecuteCancel(t, cases[t].task.mode, p);
      if r.Ok? {
        ServeKeepsProfiles(0, profiles, c, ForceCancel, i);
        ServeReaches(w, t, ForceCancel, i, Tables());
      }
    }

    method ExecuteCancel(t: TaskId, mode: PaymentMode, p: Provider) returns (r: Result<Task, Error>)
      requires Valid() && t < |cases| && mode == cases[t].task.mode
      modifies this`cases
      ensures r.Ok? <==> CanCancel(old(cases)[t].task.status)
      ensures r.Err? ==> r.error == BadRequest
      ensures r.Ok? ==> cases == old(cases)[t := Solo(0, old(cases)[t], CancelFunds(mode), With(p, None))]
      ensures r.Ok? ==> cases[t].task == r.value == old(cases)[t].task.(status := Cancelled)
      ensures r.Ok? ==> IsCancelled(old(cases)[t], cases[t], old(With(p, None)))
      ensures r.Err? ==> cases == old(cases)
    {
      ghost var c, i := cases[t], With(p, None);
      hide Solo, Reaches, CaseInv, IsCancelled;
      CaseOf(Tables(), t);
      CasesOf(Tables());
      if CanCancel(cases[t].task.status) {
        SoloCancels(0, c, i);
      }
      AtCancelFunds(0, c, mode, i);
      if !Cancellable(cases[t].task.status) { return Err(BadRequest); }
      cases := cases[t := CancelTask(cases[t], mode).rows];
      if mode == EscrowMode {
        AtReadCancelled(0, cases[t], i);
        if AwaitsRefund(cases[t]) {
          var _ := InitiateForEscrow(t, CancelReason, p);
        }
      }
      return Ok(cases[t].task);
    }

    method RaiseDispute(t: TaskId, user: UserId) returns (r: Result<Task, Error>)
      requires Valid()
      modifies this`cases
      ensures Valid()
      ensures cases == old(After(t, Request.RaiseDispute(user), With(Provider(false, false), None)))
      ensures r.Ok? <==> t < |cases| && CanDispute(old(cases)[t], user) && old(cases)[t].dispute.None?
      ensures r.Ok? ==> r.value == old(cases)[t].task.(status := TaskDisputed)
      ensures r.Ok? ==>
                && (r.value.mode == EscrowMode ==> cases[t].escrow.Some?)
                && Leaves(WithEscrow(old(cases)[t], EscrowDisputed)
                            .(task := r.value, dispute := Some(Dispute(user, DisputeOpen))), cases[t], SILENT)
      ensures r.Err? ==> cases == old(cases)
      ensures r == Err(NotFound) <==> t >= |cases|
      ensures r == Err(Forbidden) <==> t < |cases| && !IsParticipant(old(cases)[t], user)
      ensures r == Err(BadRequest) <==>
                t < |cases| && IsParticipant(old(cases)[t], user) && !CanDispute(old(cases)[t], user)
      ensures r == Err(Internal) <==> t < |cases| && CanDispute(old(cases)[t], user) && old(cases)[t].dispute.Some?
    {
      if t >= |cases| { return Err(NotFound); }
      ghost var w, c, i := Tables(), cases[t], With(Provider(false, false), None);
      hide Reaches, AllAtomic, Solo, SoloProfiles, CaseInv;
      CaseOf(w, t);
      CasesOf(w);
      DisputeFreezes(0, c, user, i);
      var task := cases[t].task;
      if task.posterId != user && task.doerId != Some(user) { return Err(Forbidden); }
      if task.status != Assigned && task.status != InProgress && task.status != Completed { return Err(BadRequest); }
      AtDisputeFunds(0, c, user, task.mode, i);
      var result := Rows.RaiseDispute(cases[t], user, task.mode);
      cases := cases[t := result.rows];
      ServeKeepsProfiles(0, profiles, c, Request.RaiseDispute(user), i);
      ServeReaches(w, t, Request.RaiseDispute(user), i, Tables());
      if !result.matched { return Err(Internal); }
      return Ok(cases[t].task);
    }

    // --- PaymentsService ---

    /** Prepare a checkout. The order id is stored even when the callback addresses turn
        out to be missing. */
    method InitiatePayment(t: TaskId, user: UserId, urlsSet: bool) returns (r: Result<Checkout, Error>)
      requires Valid()
      modifies this`cases
      ensures Valid()
      ensures cases == old(After(t, Request.InitiatePayment(user), With(Provider(false, false), None)))
      ensures t < |cases| && CanPay(old(cases)[t], user) ==> Leaves(Ordered(old(cases)[t]), cases[t], SILENT)
      ensures !(t < |cases| && CanPay(old(cases)[t], user)) ==> cases == old(cases)
      ensures r.Ok? <==> urlsSet && t < |cases| && CanPay(old(cases)[t], user)
      ensures r.Ok? ==>
                var c := old(cases)[t];
                if c.task.mode == EscrowMode then
                  && r.value.orderId == "HM-" + Orders.Upper(c.task.uuid)
                  && r.value.amount == c.escrow.value.amounts.budget + c.escrow.value.amounts.posterFee
                else r == Ok(Checkout("HMF-" + Orders.Upper(c.task.uuid), 9900))
      ensures r.Ok? ==>
                if cases[t].task.mode == EscrowMode then HasOrder(cases[t], r.value.orderId)
                else HasFeeOrder(cases[t], r.value.orderId)
      ensures r == Err(NotFound) <==>
                || t >= |cases|
                || (old(cases)[t].task.posterId == user
                    && if old(cases)[t].task.mode == EscrowMode then old(cases)[t].escrow.None?
                       else old(cases)[t].fee.None?)
      ensures r.Err? ==> r.error == NotFound || r.error == BadRequest
    {
      if t >= |cases| { return Err(NotFound); }
      ghost var w, c, i := Tables(), cases[t], With(Provider(false, false), None);
      hide Reaches, AllAtomic, CaseInv;
      var task := cases[t].task;
      CheckoutOrders(0, c, user, i);
      if task.posterId != user { return Err(BadRequest); }
      ServeKeepsProfiles(0, profiles, c, Request.InitiatePayment(user), i);
      ServeReaches(w, t, Request.InitiatePayment(user), i, w.(cases := After(t, Request.InitiatePayment(user), i)));
      var orderId, amount;
      if task.mode == EscrowMode {
        if cases[t].escrow.None? { return Err(NotFound); }
        if cases[t].escrow.value.status != Pending { return Err(BadRequest); }
        orderId, amount := Orders.EscrowOrder(task.uuid), Charge(cases[t].escrow.value);
        Unfold(0, c, WriteEscrowOrder, i);
        cases := cases[t := SetEscrowOrder(cases[t])];
      } else {
        Unfold(0, c, ReadFee, i);
        Unfold(0, c, WriteFeeOrder, i);
        if cases[t].fee.None? { return Err(NotFound); }
        if cases[t].fee.value.status != FeePending { return Err(BadRequest); }
        FeeAmount(w, t);
        orderId, amount := Orders.FeeOrder(task.uuid), cases[t].fee.value.amount;
        cases := cases[t := SetFeeOrder(cases[t])];
      }
      if !urlsSet { return Err(BadRequest); }
      return Ok(Checkout(orderId, amount));
    }

    /** The escrow row that carries an order id; unique keys leave no choice. */
    method FindEscrow(order: string) returns (owner: Option<TaskId>)
      ensures match owner
              case Some(t) => t < |cases| && HasOrder(cases[t], order)
              case None => forall t :: 0 <= t < |cases| ==> !HasOrder(cases[t], order)
    {
      for t := 0 to |cases|
        invariant forall u :: 0 <= u < t ==> !HasOrder(cases[u], order)
      {
        if cases[t].escrow.Some? && cases[t].escrow.value.orderId == Some(order) { return Some(t); }
      }
      return None;
    }

    method FindFee(order: string) returns (owner: Option<TaskId>)
      ensures match owner
              case Some(t) => t < |cases| && HasFeeOrder(cases[t], order)
              case None => forall t :: 0 <= t < |cases| ==> !HasFeeOrder(cases[t], order)
    {
      for t := 0 to |cases|
        invariant forall u :: 0 <= u < t ==> !HasFeeOrder(cases[u], order)
      {
        if cases[t].fee.Some? && cases[t].fee.value.orderId == Some(order) { return Some(t); }
      }
      return None;
    }

    /** A notification from the payment provider. Only a signed notification of a success
        changes rows, and only those of the task that its order id leads to. */
    method HandleWebhook(signed: bool, succeeded: bool, order: string, payment: Option<PaymentId>, p: Provider)
      returns (r: Result<bool, Error>)
      requires Valid()
      modifies this`cases
      ensures Valid()
      ensures r == if signed then Ok(true) else Err(BadRequest)
      ensures !signed || !succeeded ==> cases == old(cases)
      ensures |cases| == |old(cases)|
      ensures forall t :: 0 <= t < |cases| && signed && succeeded ==>
                if HasOrder(old(cases)[t], order) then
                  && IsFunded(old(cases)[t], cases[t], payment, old(With(p, None)))
                  && cases[t] == FundedAlone(old(cases)[t], payment, old(With(p, None)))
                else if HasFeeOrder(old(cases)[t], order) then
                  && IsFeeFunded(old(cases)[t], cases[t], payment)
                  && cases[t] == FeeFundedAlone(old(cases)[t], payment, old(With(p, None)))
                else cases[t] == old(cases)[t]
    {
      if !signed { return Err(BadRequest); }
      if !succeeded { return Ok(true); }
      ghost var w, i := Tables(), With(p, None);
      hide Reaches, AllAtomic, FundedAlone, FeeFundedAlone, IsFunded, IsFeeFunded, CaseInv;
      hide OwnsEscrowOrder, OwnsFeeOrder;
      OrdersBelong(w, order);
      CasesOf(w);
      var escrow := FindEscrow(order);
      if escrow.Some? {
        NotificationFunds(cases[escrow.value], payment, i);
        ApplyEscrowPayment(escrow.value, payment, p);
        NotifyReaches(w, escrow.value, order, payment, i, Tables());
        return Ok(true);
      }
      var fee := FindFee(order);
      if fee.Some? {
        NotificationPaysFee(cases[fee.value], payment, i);
        ApplyPostingFeePayment(fee.value, payment, p);
      }
      NotifyFeeReaches(w, fee, order, payment, i, Tables());
      return Ok(true);
    }

    method ApplyEscrowPayment(t: TaskId, payment: Option<PaymentId>, p: Provider)
      requires Valid() && t < |cases| && cases[t].escrow.Some?
      modifies this`cases
      ensures cases == old(cases)[t := FundedAlone(old(cases)[t], payment, old(With(p, None)))]
    {
      ghost var c, i := cases[t], With(p, None);
      hide Solo, Reaches, AllAtomic;
      var escrow := cases[t].escrow.value;
      if escrow.status != Pending || (payment.Some? && escrow.paymentId == payment) { return; }
      Unfold(0, c, FundEscrow(escrow, payment), i);
      CaseOf(Tables(), t);
      var hooked := Rows.ApplyEscrowPayment(cases[t], 0, payment);
      cases := cases[t := hooked.rows];
      match hooked.outcome {
        case HookOpened =>
          Unfold(0, cases[t], Announce, i);
          cases := cases[t := EmitPosted(cases[t])];
        case HookRefund =>
          var _ := InitiateForEscrow(t, CancelReason, p);
        case HookHeldOnly =>
      }
    }

    method ApplyPostingFeePayment(t: TaskId, payment: Option<PaymentId>, p: Provider)
      requires t < |cases| && cases[t].fee.Some?
      modifies this`cases
      ensures cases == old(cases)[t := FeeFundedAlone(old(cases)[t], payment, old(With(p, None)))]
    {
      ghost var c, i := cases[t], With(p, None);
      hide Solo;
      var fee := cases[t].fee.value;
      if fee.status != FeePending || (payment.Some? && fee.paymentId == payment) { return; }
      Unfold(0, c, FundFee(fee, payment), i);
      var hooked := ApplyFeePayment(cases[t], 0, payment);
      cases := cases[t := hooked.rows];
      if hooked.outcome == HookOpened {
        Unfold(0, cases[t], Announce, i);
        cases := cases[t := EmitPosted(cases[t])];
      }
    }

    // --- PayoutService ---

    /** At most one payout per escrow: a second creation finds the first one's row. */
    method CreateForEscrowRelease(t: TaskId, doer: UserId, amount: int)
      requires t < |cases|
      modifies this`cases
      ensures |cases| == |old(cases)| && cases == old(cases)[t := cases[t]]
      ensures EmitReleased(cases[t]) ==
                Solo(0, old(cases)[t], LookupPayout(doer, amount), With(Provider(false, false), None))
      ensures old(cases)[t].payout.Some? ==> cases == old(cases)
      ensures old(cases)[t].payout.None? ==> cases[t].payout == Some(Payout(doer, amount, PayoutPending))
    {
      ghost var c, i := cases[t], With(Provider(false, false), None);
      hide Solo;
      Unfold(0, c, LookupPayout(doer, amount), i);
      PaidOff(0, c, doer, amount, i);
      if cases[t].payout.Some? { return; }
      Unfold(0, c, CreatePayout(doer, amount), i);
      cases := cases[t := InsertPayout(cases[t], doer, amount).rows];
      PaidOff(0, cases[t], doer, amount, i);
      cases := cases[t := DispatchPayout(cases[t])];
      cases := cases[t := SetPayout(cases[t], PayoutPending)];
    }

    method MarkPaid(t: TaskId) returns (r: Result<Payout, Error>)
      requires Valid()
      modifies this`cases
      ensures Valid()
      ensures cases == old(After(t, Request.MarkPaid, With(Provider(false, false), None)))
      ensures r.Ok? <==> t < |cases| && old(cases)[t].payout.Some?
      ensures r.Ok? ==> r.value == old(cases)[t].payout.value.(status := PayoutPaid)
      ensures r.Ok? ==> Leaves(old(cases)[t].(payout := Some(r.value)), cases[t], SILENT)
      ensures r.Err? ==> r.error == NotFound && cases == old(cases)
    {
      if t >= |cases| || cases[t].payout.None? { return Err(NotFound); }
      ghost var w, c, i := Tables(), cases[t], With(Provider(false, false), None);
      cases := cases[t := SetPayout(cases[t], PayoutPaid)];
      ServeKeepsProfiles(0, profiles, c, Request.MarkPaid, i);
      ServeReaches(w, t, Request.MarkPaid, i, Tables());
      return Ok(cases[t].payout.value);
    }

    // --- RefundService ---

    /** Make sure that a refund of this escrow exists, and try to execute it. */
    method InitiateForEscrow(t: TaskId, reason: RefundReason, p: Provider) returns (r: Result<Refund, Error>)
      requires t < |cases| && RefundsAreIdentified(cases[t])
      modifies this`cases
      ensures cases == old(cases)[t := Solo(0, old(cases)[t], StartRefund(reason), With(p, None))]
      ensures cases[t].task == old(cases)[t].task
      ensures r.Ok? ==> cases[t].refund == Some(r.value)
      ensures r.Err? <==> var c := old(cases)[t];
                          || c.escrow.None?
                          || (c.refund.None? && (!Refundable(c.escrow.value.status) || !Identified(c)))
      ensures r == Err(NotFound) <==> old(cases)[t].escrow.None?
      ensures r.Err? ==> cases == old(cases) && (r.error == NotFound || r.error == BadRequest)
    {
      ghost var c, i := cases[t], With(p, None);
      hide Solo;
      AtStartRefund(0, c, reason, i);
      if cases[t].escrow.None? { return Err(NotFound); }
      var escrow := cases[t].escrow.value;
      AtLookupRefund(0, c, reason, escrow, i);
      var existing := cases[t].refund;
      if existing.Some? {
        if existing.value.status == RefundDone || existing.value.status == Processing { return Ok(existing.value); }
        r := Execute(t, p);
        return;
      }
      if !Refundable(escrow.status) { return Err(BadRequest); }
      if escrow.paymentId.None? { return Err(BadRequest); }
      AtClaimFunds(0, c, reason, escrow, i);
      cases := cases[t := ClaimEscrow(cases[t]).rows];
      var amount := Charge(escrow);
      AtCreateRefund(0, cases[t], reason, escrow, i);
      // Nothing else runs, so the insert cannot find a row that the lookup did not.
      cases := cases[t := InsertRefund(cases[t], amount, reason).rows];
      r := Execute(t, p);
    }

    method Execute(t: TaskId, p: Provider) returns (r: Result<Refund, Error>)
      requires t < |cases| && RefundsAreIdentified(cases[t])
      modifies this`cases
      ensures cases == old(cases)[t := Solo(0, old(cases)[t], ReadRefund, With(p, None))]
      ensures cases[t].task == old(cases)[t].task
      ensures r.Ok? <==> old(cases)[t].refund.Some?
      ensures r.Ok? ==> cases[t].refund == Some(r.value)
    {
      ghost var c, i := cases[t], With(p, None);
      hide Solo;
      AtReadRefund(0, c, i);
      if cases[t].refund.None? { return Err(NotFound); }
      var refund := cases[t].refund.value;
      if refund.status == RefundDone || refund.status == Processing { return Ok(refund); }
      if !p.configured { return Ok(refund); }
      var payment := cases[t].escrow.value.paymentId.value;
      AtClaimExecution(0, c, payment, i);
      // Nothing else runs, so the claim matches.
      cases := cases[t := ClaimRefund(cases[t], 0).rows];
      AtCallRefund(0, cases[t], payment, i);
      cases := cases[t := CallProvider(cases[t], p.accepts)];
      if p.accepts {
        cases := cases[t := FinishRefund(cases[t])];
      } else {
        cases := cases[t := FailRefund(cases[t])];
      }
      return Ok(cases[t].refund.value);
    }

    method Retry(t: TaskId, p: Provider) returns (r: Result<Refund, Error>)
      requires Valid()
      modifies this`cases
      ensures Valid()
      ensures cases == old(After(t, RetryRefund, With(p, None)))
      ensures r.Ok? <==>
                && t < |cases| && old(cases)[t].refund.Some?
                && (old(cases)[t].refund.value.status == Queued || old(cases)[t].refund.value.status == RefundFailed)
      ensures r.Ok? ==> cases[t].refund == Some(r.value)
      ensures r.Ok? ==> IsAttempt(old(cases)[t], cases[t], old(cases)[t].refund.value, old(With(p, None)))
      ensures r.Err? ==> cases == old(cases)
      ensures r == Err(NotFound) <==> t >= |cases| || old(cases)[t].refund.None?
      ensures r == Err(BadRequest) <==>
                && t < |cases| && old(cases)[t].refund.Some?
                && (old(cases)[t].refund.value.status == Processing || old(cases)[t].refund.value.status == RefundDone)
    {
      if t >= |cases| || cases[t].refund.None? { return Err(NotFound); }
      ghost var w, c, i := Tables(), cases[t], With(p, None);
      hide Solo, Reaches, CaseInv;
      CaseOf(w, t);
      CasesOf(w);
      RetryAttempts(0, c, i);
      if cases[t].refund.value.status == RefundDone { return Err(BadRequest); }
      if cases[t].refund.value.status == Processing { return Err(BadRequest); }
      r := Execute(t, p);
      ServeKeepsProfiles(0, profiles, c, RetryRefund, i);
      ServeReaches(w, t, RetryRefund, i, Tables());
    }

    // --- AdminService ---

    method InitiateEscrowRefund(t: TaskId, p: Provider) returns (r: Result<Refund, Error>)
      requires Valid()
      modifies this`cases
      ensures Valid()
      ensures cases == old(After(t, AdminRefund, With(p, None)))
      ensures r.Ok? <==>
                && t < |cases| && old(cases)[t].escrow.Some? && !EscrowIs(old(cases)[t], EscrowDisputed)
                && (old(cases)[t].refund.Some?
                    || ((EscrowIs(old(cases)[t], Held) || EscrowIs(old(cases)[t], RefundPending))
                        && old(cases)[t].escrow.value.paymentId.Some?))
      ensures r.Ok? ==> RefundSought(old(cases)[t], cases[t], AdminReason, old(With(p, None)))
      ensures r.Err? ==> cases == old(cases) && (r.error == NotFound || r.error == BadRequest)
      ensures r == Err(NotFound) <==> t >= |cases| || old(cases)[t].escrow.None?
      ensures r.Ok? ==> cases[t].refund == Some(r.value) && cases[t].payout.None?
    {
      if t >= |cases| || cases[t].escrow.None? { return Err(NotFound); }
      ghost var w, c, i := Tables(), cases[t], With(p, None);
      hide Solo, Reaches, CaseInv, RefundSought, AllAtomic, ServeProfiles;
      CaseOf(w, t);
      CasesOf(w);
      AdminSeeksRefund(0, c, i);
      if cases[t].escrow.value.status == EscrowDisputed { return Err(BadRequest); }
      r := InitiateForEscrow(t, AdminReason, p);
      ServeKeepsProfiles(0, profiles, c, AdminRefund, i);
      ServeReaches(w, t, AdminRefund, i, Tables());
      NeverBoth(Tables(), t);
    }

    method ResolveDispute(t: TaskId, refundPoster: bool) returns (r: Result<bool, Error>)
      requires Valid()
      modifies this`cases
      ensures Valid()
      ensures cases == old(After(t, Request.ResolveDispute(refundPoster), With(Provider(false, false), None)))
      ensures r.Ok? <==> t < |cases| && old(cases)[t].dispute.Some?
      ensures r.Ok? ==>
                var c := old(cases)[t];
                Leaves(WithEscrow(c, if refundPoster then Refunded else Released)
                         .(task := c.task.(status := Completed),
                           dispute := Some(c.dispute.value.(status := DisputeResolved))), cases[t], SILENT)
      ensures r.Err? ==> r.error == NotFound && cases == old(cases)
    {
      if t >= |cases| || cases[t].dispute.None? { return Err(NotFound); }
      ghost var w, c, i := Tables(), cases[t], With(Provider(false, false), None);
      hide Reaches, AllAtomic, Solo, SoloProfiles;
      AtSettleDispute(0, c, cases[t].escrow.Some?, refundPoster, i);
      ResolutionWrites(0, c, refundPoster, i);
      cases := cases[t := Rows.ResolveDispute(cases[t], cases[t].escrow.Some?, refundPoster)];
      ServeKeepsProfiles(0, profiles, c, Request.ResolveDispute(refundPoster), i);
      ServeReaches(w, t, Request.ResolveDispute(refundPoster), i, Tables());
      return Ok(true);
    }

    // --- Doer profiles ---

    /** A user applies, or applies again: the profile waits for a review, and a former one keeps
        its tier and its job counter. `ownKeys` tells whether all document keys are the user's. */
    method SubmitKyc(user: UserId, ownKeys: bool) returns (r: Result<Profile, Error>)
      requires Valid()
      modifies this`profiles
      ensures Valid()
      ensures r == Err(Forbidden) <==> !ownKeys
      ensures r == Err(Conflict) <==> ownKeys && user in old(profiles) && old(profiles)[user].approved
      ensures r.Err? ==> profiles == old(profiles) && (r.error == Forbidden || r.error == Conflict)
      ensures r.Ok? ==> profiles == old(profiles)[user := r.value] && !r.value.approved
      ensures r.Ok? ==> if user in old(profiles) then r.value == old(profiles)[user].(approved := false)
                        else r.value == Profile(false, Bronze, 0)
    {
      if !ownKeys { return Err(Forbidden); }
      if user in profiles && profiles[user].approved { return Err(Conflict); }
      var tier := if user in profiles then profiles[user].tier else Bronze;
      Extend(Tables(), Review(user, false, tier));
      var profile := Profile(false, tier, if user in profiles then profiles[user].jobs else 0);
      profiles := profiles[user := profile];
      return Ok(profile);
    }

    /** Approve or reject a profile that is there; its job counter stays, and so does the tier
        of a rejected one. */
    method ReviewProfile(user: UserId, approved: bool, tier: Tier) returns (r: Result<Profile, Error>)
      requires Valid()
      modifies this`profiles
      ensures Valid()
      ensures user !in old(profiles) ==> r == Err(NotFound) && profiles == old(profiles)
      ensures user in old(profiles) ==>
                && r == Ok(Profile(approved, if approved then tier else old(profiles)[user].tier,
                                   old(profiles)[user].jobs))
                && profiles == old(profiles)[user := r.value]
    {
      if user !in profiles { return Err(NotFound); }
      var profile := Profile(approved, if approved then tier else profiles[user].tier, profiles[user].jobs);
      Extend(Tables(), Review(user, approved, profile.tier));
      profiles := profiles[user := profile];
      return Ok(profile);
    }

    // --- SchedulerService ---

    /** Re-drive the escrows that await a refund, at most SWEEP_LIMIT of them. An item fails
        only for want of a payment id, and the second scan finds nothing. `failed` counts the
        caught errors, and `picks` is what the first query answered. */
    method Reconcile(configured: bool, accepts: TaskId -> bool)
      returns (scanned: nat, completed: nat, failed: nat, ghost picks: seq<TaskId>)
      requires Valid()
      modifies this`cases
      ensures Valid()
      ensures Answers(picks, PendingRefunds(old(cases)), Some(100)) && scanned == |picks|
      ensures |cases| == |old(cases)|
      ensures forall t :: 0 <= t < |cases| ==>
                if t in picks then
                  RefundSought(old(cases)[t], cases[t], AdminReason, Input(now, configured, accepts(t), None))
                else cases[t] == old(cases)[t]
      ensures SweptTo(old(cases), cases, picks, |picks|, SweepInput(now, configured, accepts))
      ensures completed == CountDone(cases, picks) && failed == CountLost(old(cases), picks)
    {
      ghost var w, before, inputs := Tables(), cases, SweepInput(now, configured, accepts);
      PendingAreSwept(cases);
      hide Reaches, AllAtomic, Solo, SweptTo, Answers, CountDone, CountLost, AwaitsRefund, RefundJobs;
      var pending := Query(Awaiting(cases), Some(SWEEP_LIMIT));
      picks := pending;
      SweepStarts(Tables(), pending, inputs);
      completed, failed := 0, 0;
      for n := 0 to |pending|
        invariant Reaches(SweepWorld(cases, pending, n, profiles, now)) && AllAtomic(cases)
        invariant SweptTo(before, cases, pending, n, inputs)
        invariant completed == CountDone(cases, pending[..n]) && failed == CountLost(before, pending[..n])
      {
        var t := pending[n];
        SweptSkips(before, cases, pending, n, inputs);
        AwaitingIsRefundable(SweepWorld(cases, pending, n, profiles, now), t);
        ghost var cs := cases;
        var r := InitiateForEscrow(t, AdminReason, Provider(configured, accepts(t)));
        match r {
          case Ok(refund) => if refund.status == RefundDone { completed := completed + 1; }
          case Err(_) => failed := failed + 1;
        }
        SweepItem(before, cs, cases, pending, n, inputs, profiles, now);
      }
      SweepEnds(cases, pending, profiles, now);
      var anomalies := Query(Anomalies(cases), Some(SWEEP_LIMIT));
      AnswerSize(anomalies, Anomalies(cases), SWEEP_LIMIT);
      assert pending[..|pending|] == pending;
      scanned := |pending| + |anomalies|;
      SweptSought(w, cases, picks, inputs);
    }

    /** One hourly sweep with a provider that accepts, when no refund was left in
        PROCESSING: it completes all it takes but those whose payment id is missing. */
    method ReconcileRefunds() returns (scanned: nat, completed: nat, failed: nat)
      requires Valid() && NoneStuck(cases)
      modifies this`cases
      ensures Valid() && NoneStuck(cases) && Lost(cases) == Lost(old(cases))
      ensures var waiting := |PendingRefunds(old(cases))|;
              && scanned == completed + failed == (if waiting < 100 then waiting else 100)
              && |PendingRefunds(cases)| == waiting - completed
      ensures Lost(old(cases)) == {} ==> failed == 0
    {
      hide Reaches, AllAtomic, NoneStuck, Answers, SweptTo, RefundSought;
      ghost var w := Tables();
      ghost var picks;
      PendingAreSwept(cases);
      scanned, completed, failed, picks := Reconcile(true, t => true);
      SweepConverges(w, cases, picks, SweepInput(now, true, t => true));
      NoneLost(w.cases, picks);
    }

    /** Sweeps at the full hours, with nothing between them: when every payment id is known,
        the waiting refunds run out at SWEEP_LIMIT a time, so one sweep for each hundred of
        them, or part of it, is enough; an escrow whose payment id is missing waits on. */
    method SweepHourly(hours: nat)
      requires Valid() && NoneStuck(cases)
      modifies this`cases, this`now
      ensures Valid() && NoneStuck(cases) && Lost(cases) == Lost(old(cases)) && now == old(now) + hours * 3600000
      ensures var waiting := |PendingRefunds(old(cases))|;
              && (Lost(old(cases)) == {} ==>
                  |PendingRefunds(cases)| == if waiting <= hours * 100 then 0 else waiting - hours * 100)
              && (waiting <= hours * 100 ==> (PendingRefunds(cases) == {} <==> Lost(old(cases)) == {}))
    {
      hide Reaches, AllAtomic, NoneStuck, PendingRefunds, Lost;
      for n := 0 to hours
        invariant Valid() && NoneStuck(cases) && Lost(cases) == Lost(old(cases)) && now == old(now) + n * 3600000
        invariant var waiting := |PendingRefunds(old(cases))|;
                  Lost(old(cases)) == {} ==>
                    |PendingRefunds(cases)| == if waiting <= n * 100 then 0 else waiting - n * 100
      {
        Advance(now + HOUR);
        var _, _, _ := ReconcileRefunds();
      }
      PendingAreSwept(cases);
    }

    /** Release every escrow whose completion was left unconfirmed for 24 hours. */
    method AutoReleaseEscrows() returns (scanned: nat, released: nat)
      requires Valid()
      modifies this`cases, this`profiles
      ensures Valid()
      ensures scanned == released == |Overdue(old(cases), now)| && Overdue(cases, now) == {}
      ensures |cases| == |old(cases)|
      ensures forall t :: 0 <= t < |cases| ==>
                if IsOverdue(old(cases)[t], now) then IsPaidOut(old(cases)[t], cases[t]) else cases[t] == old(cases)[t]
      ensures profiles.Keys == old(profiles).Keys
      ensures forall user :: user in profiles ==>
                && profiles[user].approved == old(profiles)[user].approved
                && profiles[user].tier == old(profiles)[user].tier
                && profiles[user].jobs == old(profiles)[user].jobs + Sum(old(cases), EarnedBy(user, now))
    {
      ghost var w := Tables();
      OverdueIsDue(cases, now);
      hide Reaches, AllAtomic, Solo, SoloProfiles, IsPaidOut, IsDue, IsOverdue, Credit, SameMarks;
      assert SameMarks(profiles, profiles) by { NoMarksYet(profiles); }
      var due := Query(Due(cases, now), None);
      Extend(w, ScanDue(0, due));
      released := 0;
      for n := 0 to |due|
        invariant |cases| == |w.cases| && AllAtomic(cases)
        invariant Reaches(World(cases, Rest(0, ReleaseJobs(w, due)[n..], false), profiles, now))
        invariant forall t :: 0 <= t < |cases| ==>
                    if t in due[..n] then IsPaidOut(w.cases[t], cases[t]) else cases[t] == w.cases[t]
        invariant released == n && SameMarks(w.profiles, profiles)
      {
        var t := due[n];
        ghost var u := World(cases, Rest(0, ReleaseJobs(w, due)[n..], false), profiles, now);
        ghost var j := ReleaseJobs(w, due)[n];
        assert t !in due[..n];
        DueReleases(w, t, With(Provider(false, false), None));
        var task := cases[t].task;
        var didRelease := ReleaseEscrow(t, task.doerId, ByAuto(now, task.completedAt.value));
        if didRelease { released := released + 1; }
        CreditedOnce(0, u.profiles, u.cases[t], j.worker, ByAuto(j.scan, j.completedAt),
                     With(Provider(false, false), None));
        CreditMarks(w.profiles, u.profiles, u.cases[t], ReleaseFunds(j.worker, ByAuto(j.scan, j.completedAt)));
        ItemReaches(u, t, ReleaseJobs(w, due)[n..], false, With(Provider(false, false), None),
                    World(cases, Rest(0, ReleaseJobs(w, due)[n + 1..], false), profiles, now));
      }
      assert due[..|due|] == due;
      NothingDue(w.cases, cases, due, now);
      JobsGrow(w, Tables());
      MarksAre(w.profiles, profiles);
      scanned := |due|;
    }

    /** The sum that the statistics report as held. */
    method EscrowHeld() returns (sum: int)
      ensures sum == Sum(cases, Ledger.HeldBudget)
    {
      sum := 0;
      for t := 0 to |cases|
        invariant sum == Sum(cases[..t], Ledger.HeldBudget)
      {
        assert cases[..t + 1] == cases[..t] + [cases[t]];
        SumAppend(cases[..t], cases[t], Ledger.HeldBudget);
        if IsHeld(cases[t]) {
          sum := sum + cases[t].escrow.value.amounts.budget;
        }
      }
      assert cases[..|cases|] == cases;
    }
  }
}
