/**
  Admin accounts and four-eyes role changes, one request at a time.  Every
  endpoint first passes the session guard and the SUPER_ADMIN requirement; the
  controller adds a rank check to some of them.
 */
module AdminUsers {
  import opened Wrappers

  type AdminId = nat
  type SessionId = nat
  /** Requests are numbered in creation order. */
  type RequestId = nat

  datatype Role = Reviewer | Moderator | SuperAdmin

  function Rank(r: Role): nat
  {
    match r
    case Reviewer => 0
    case Moderator => 1
    case SuperAdmin => 2
  }

  /** `createdRole` is history: the role given at creation. */
  datatype Admin = Admin(email: string, role: Role, active: bool, createdRole: Role)

  datatype RequestStatus = Pending | Approved | Rejected | Cancelled

  datatype Request = Request(
    target: AdminId, previousRole: Role, requestedRole: Role, status: RequestStatus,
    requestedBy: AdminId, reviewedBy: Option<AdminId>)

  /** `sessions` holds the sessions that are neither revoked nor expired. */
  datatype State = State(admins: map<AdminId, Admin>, requests: seq<Request>, sessions: map<SessionId, AdminId>)

  datatype Error =
    | Unauthorized | RoleTooLow | NotFound | EmailInUse | EqualOrHigherRole
    | OwnAccount | TargetInactive | SameRole | PendingExists
    | AlreadyReviewed | FourEyes | StaleRole

  datatype Op =
    | Login(session: SessionId, admin: AdminId)
    | Logout(session: SessionId)
    | Create(session: SessionId, id: AdminId, email: string, role: Role)
    | RequestChange(session: SessionId, target: AdminId, role: Role)
    | Approve(session: SessionId, request: RequestId)
    | Reject(session: SessionId, request: RequestId)
    | Deactivate(session: SessionId, target: AdminId)
    | Activate(session: SessionId, target: AdminId)

  // ----- Guards -----

  /** The two guards of the controller class: a live session of an active admin, then the required role. */
  function Guard(s: State, session: SessionId): Result<AdminId, Error>
  {
    if session !in s.sessions || s.sessions[session] !in s.admins then Err(Unauthorized)
    else
      var a := s.sessions[session];
      if !s.admins[a].active then Err(Unauthorized)
      else if Rank(s.admins[a].role) < Rank(SuperAdmin) then Err(RoleTooLow)
      else Ok(a)
  }

  predicate CanManage(requesting: Role, target: Role) { Rank(requesting) > Rank(target) }

  predicate HasPending(requests: seq<Request>, target: AdminId)
  {
    exists i :: 0 <= i < |requests| && requests[i].target == target && requests[i].status == Pending
  }

  predicate EmailTaken(admins: map<AdminId, Admin>,
      email: string) { exists a :: a in admins && admins[a].email == email }

  function WithoutSessionsOf(sessions: map<SessionId, AdminId>, a: AdminId): map<SessionId, AdminId>
  {
    map x | x in sessions && sessions[x] != a :: sessions[x]
  }

  // ----- Handlers: the checks in order, then the change -----

  function CheckCreate(s: State, email: string): Option<Error>
  {
    if EmailTaken(s.admins, email) then Some(EmailInUse) else None
  }

  function CheckRequest(s: State, caller: AdminId, target: AdminId, role: Role): Option<Error>
    requires caller in s.admins
  {
    if target !in s.admins then Some(NotFound)
    else if !CanManage(s.admins[caller].role, s.admins[target].role) then Some(EqualOrHigherRole)
    else if target == caller then Some(OwnAccount)
    else if !s.admins[target].active then Some(TargetInactive)
    else if s.admins[target].role == role then Some(SameRole)
    else if HasPending(s.requests, target) then Some(PendingExists)
    else None
  }

  function CheckApprove(s: State, caller: AdminId, r: RequestId): Option<Error>
  {
    if r >= |s.requests| || s.requests[r].target !in s.admins then Some(NotFound)
    else
      var q := s.requests[r];
      if q.status != Pending then Some(AlreadyReviewed)
      else if q.requestedBy == caller then Some(FourEyes)
      else if q.target == caller then Some(OwnAccount)
      else if !s.admins[q.target].active then Some(TargetInactive)
      else if s.admins[q.target].role != q.previousRole then Some(StaleRole)
      else None
  }

  function CheckReject(s: State, r: RequestId): Option<Error>
  {
    if r >= |s.requests| then Some(NotFound)
    else if s.requests[r].status != Pending then Some(AlreadyReviewed)
    else None
  }

  function CheckDeactivate(s: State, caller: AdminId, target: AdminId): Option<Error>
    requires caller in s.admins
  {
    if target !in s.admins then Some(NotFound)
    else if !CanManage(s.admins[caller].role, s.admins[target].role) then Some(EqualOrHigherRole)
    else if target == caller then Some(OwnAccount)
    else None
  }

  function Requested(s: State, caller: AdminId, target: AdminId, role: Role): State
    requires target in s.admins
  {
    s.(requests := s.requests + [Request(target, s.admins[target].role, role, Pending, caller, None)])
  }

  /** New role, reviewed request, revoked sessions: one transaction. */
  function Applied(s: State, caller: AdminId, r: RequestId): State
    requires r < |s.requests| && s.requests[r].target in s.admins
  {
    var q := s.requests[r];
    State(s.admins[q.target := s.admins[q.target].(role := q.requestedRole)],
          s.requests[r := q.(status := Approved, reviewedBy := Some(caller))],
          WithoutSessionsOf(s.sessions, q.target))
  }

  function Refused(s: State, caller: AdminId, r: RequestId): State
    requires r < |s.requests|
  {
    var q := s.requests[r];
    var status := if q.requestedBy == caller then Cancelled else Rejected;
    s.(requests := s.requests[r := q.(status := status, reviewedBy := Some(caller))])
  }

  function Deactivated(s: State, target: AdminId): State
    requires target in s.admins
  {
    s.(admins := s.admins[target := s.admins[target].(active := false)], sessions := WithoutSessionsOf(s.sessions,
        target))
  }

  /** A guarded request by `caller`. */
  function Handle(s: State, caller: AdminId, op: Op): State
    requires caller in s.admins
  {
    match op
    case Create(_, id, email, role) =>
      if id in s.admins || CheckCreate(s, email).Some? then s
      else s.(admins := s.admins[id := Admin(email, role, true, role)])
    case RequestChange(_, target, role) =>
      if CheckRequest(s, caller, target, role).Some? then s else Requested(s, caller, target, role)
    case Approve(_, r) => if CheckApprove(s, caller, r).Some? then s else Applied(s, caller, r)
    case Reject(_, r) => if CheckReject(s, r).Some? then s else Refused(s, caller, r)
    case Deactivate(_, target) => if CheckDeactivate(s, caller, target).Some? then s else Deactivated(s, target)
    case Activate(_, target) =>
      if target !in s.admins then s else s.(admins := s.admins[target := s.admins[target].(active := true)])
    case _ => s
  }

  function Apply(s: State, op: Op): State
  {
    match op
    case Login(session, a) =>
      if session in s.sessions || a !in s.admins || !s.admins[a].active then s
      else s.(sessions := s.sessions[session := a])
    case Logout(session) => s.(sessions := s.sessions - {session})
    case _ =>
      match Guard(s, op.session)
      case Err(_) => s
      case Ok(caller) => Handle(s, caller, op)
  }

  function Run(start: State, ops: seq<Op>): State
  {
    if ops == [] then start else Apply(Run(start, ops[..|ops| - 1]), ops[|ops| - 1])
  }

  /** Any accounts and sessions, no role change requested yet. */
  predicate Initial(s: State)
  {
    s.requests == [] && forall a :: a in s.admins ==> s.admins[a].createdRole == s.admins[a].role
  }

  // What the guards and the handlers promise, in terms of the rows.

  /** A live session of an active SUPER_ADMIN account. */
  predicate MayAct(s: State, session: SessionId)
  {
    && session in s.sessions && s.sessions[session] in s.admins
    && s.admins[s.sessions[session]].active && s.admins[s.sessions[session]].role == SuperAdmin
  }

  /** A live session of an active account of lower role. */
  predicate LowerRole(s: State, session: SessionId)
  {
    && session in s.sessions && s.sessions[session] in s.admins
    && s.admins[s.sessions[session]].active && s.admins[s.sessions[session]].role != SuperAdmin
  }

  predicate AwaitsReview(requests: seq<Request>, target: AdminId)
  {
    exists i :: 0 <= i < |requests| && requests[i].target == target && requests[i].status == Pending
  }

  /** All sessions of `target`, and no others, are gone. */
  ghost predicate LoggedOut(sessions: map<SessionId, AdminId>, sessions': map<SessionId, AdminId>, target: AdminId)
  {
    forall x: SessionId ::
      (x in sessions' <==> x in sessions && sessions[x] != target) && (x in sessions' ==> sessions'[x] == sessions[x])
  }

  // ----- The service object -----

  class AdminUsersService {
    var admins: map<AdminId, Admin>
    var requests: seq<Request>
    var sessions: map<SessionId, AdminId>

    function Value(): State
      reads this
    {
      State(admins, requests, sessions)
    }

    constructor (start: State)
      ensures Value() == start
    {
      admins, requests, sessions := start.admins, start.requests, start.sessions;
    }

    method RequestRoleChange(session: SessionId, target: AdminId, role: Role) returns (r: Result<RequestId, Error>)
      modifies this
      ensures Value() == Apply(old(Value()), RequestChange(session, target, role))
      ensures r.Err? ==> Value() == old(Value())
      ensures r == Err(RoleTooLow) <==> LowerRole(old(Value()), session)
      ensures r == Err(Unauthorized) <==> !MayAct(old(Value()), session) && !LowerRole(old(Value()), session)
      ensures r == Err(NotFound) <==> MayAct(old(Value()), session) && target !in old(admins)
      ensures r == Err(EqualOrHigherRole) <==>
                MayAct(old(Value()), session) && target in old(admins) && old(admins)[target].role == SuperAdmin
      ensures r == Err(TargetInactive) <==>
                && MayAct(old(Value()), session) && target in old(admins) && old(admins)[target].role != SuperAdmin
                && !old(admins)[target].active
      ensures r == Err(SameRole) <==>
                && MayAct(old(Value()), session) && target in old(admins) && old(admins)[target].role != SuperAdmin
                && old(admins)[target].active && old(admins)[target].role == role
      ensures r.Ok? <==>
                && MayAct(old(Value()), session) && target in old(admins) && old(admins)[target].role != SuperAdmin
                && old(admins)[target].active && old(admins)[target].role != role
                && !AwaitsReview(old(requests), target)
      ensures r.Ok? ==>
                && r.value == |old(requests)| && admins == old(admins) && sessions == old(sessions)
                && requests == old(requests) + [
                     Request(target, old(admins)[target].role, role, Pending, old(sessions)[session], None)]
    {
      var caller := Guard(Value(), session);
      if caller.Err? {
        return Err(caller.error);
      }
      var refusal := CheckRequest(Value(), caller.value, target, role);
      if refusal.Some? {
        return Err(refusal.value);
      }
      requests := requests + [Request(target, admins[target].role, role, Pending, caller.value, None)];
      r := Ok(|requests| - 1);
    }

    method ApproveRoleChange(session: SessionId, request: RequestId) returns (r: Result<(), Error>)
      modifies this
      ensures Value() == Apply(old(Value()), Approve(session, request))
      ensures r.Err? ==> Value() == old(Value())
      ensures r == Err(RoleTooLow) <==> LowerRole(old(Value()), session)
      ensures r == Err(Unauthorized) <==> !MayAct(old(Value()), session) && !LowerRole(old(Value()), session)
      ensures r.Ok? <==>
                && MayAct(old(Value()), session) && request < |old(requests)|
                && var q, caller := old(requests)[request], old(sessions)[session];
                   && q.target in old(admins) && q.status == Pending && q.requestedBy != caller && q.target != caller
                   && old(admins)[q.target].active && old(admins)[q.target].role == q.previousRole
      ensures r == Err(FourEyes) <==>
                && MayAct(old(Value()), session) && request < |old(requests)|
                && var q, caller := old(requests)[request], old(sessions)[session];
                   q.target in old(admins) && q.status == Pending && q.requestedBy == caller
      ensures r.Ok? ==>
                var q, caller := old(requests)[request], old(sessions)[session];
                && admins == old(admins)[q.target := old(admins)[q.target].(role := q.requestedRole)]
                && requests == old(requests)[request := q.(status := Approved, reviewedBy := Some(caller))]
                && LoggedOut(old(sessions), sessions, q.target)
    {
      var caller := Guard(Value(), session);
      if caller.Err? {
        return Err(caller.error);
      }
      var refusal := CheckApprove(Value(), caller.value, request);
      if refusal.Some? {
        return Err(refusal.value);
      }
      var q := requests[request];
      admins := admins[q.target := admins[q.target].(role := q.requestedRole)];
      requests := requests[request := q.(status := Approved, reviewedBy := Some(caller.value))];
      sessions := WithoutSessionsOf(sessions, q.target);
      r := Ok(());
    }

    method RejectRoleChange(session: SessionId, request: RequestId) returns (r: Result<RequestStatus, Error>)
      modifies this
      ensures Value() == Apply(old(Value()), Reject(session, request))
      ensures r.Err? ==> Value() == old(Value())
      ensures r == Err(RoleTooLow) <==> LowerRole(old(Value()), session)
      ensures r == Err(Unauthorized) <==> !MayAct(old(Value()), session) && !LowerRole(old(Value()), session)
      ensures r.Ok? <==>
                && MayAct(old(Value()), session) && request < |old(requests)|
                && old(requests)[request].status == Pending
      ensures r.Ok? ==>
                var q, caller := old(requests)[request], old(sessions)[session];
                && admins == old(admins) && sessions == old(sessions)
                && r.value == (if q.requestedBy == caller then Cancelled else Rejected)
                && requests == old(requests)[request := q.(status := r.value, reviewedBy := Some(caller))]
    {
      var caller := Guard(Value(), session);
      if caller.Err? {
        return Err(caller.error);
      }
      var refusal := CheckReject(Value(), request);
      if refusal.Some? {
        return Err(refusal.value);
      }
      var q := requests[request];
      var status := if q.requestedBy == caller.value then Cancelled else Rejected;
      requests := requests[request := q.(status := status, reviewedBy := Some(caller.value))];
      r := Ok(status);
    }

    method DeactivateUser(session: SessionId, target: AdminId) returns (r: Result<(), Error>)
      modifies this
      ensures Value() == Apply(old(Value()), Deactivate(session, target))
      ensures r == Err(RoleTooLow) <==> LowerRole(old(Value()), session)
      ensures r == Err(Unauthorized) <==> !MayAct(old(Value()), session) && !LowerRole(old(Value()), session)
      ensures r.Err? ==> Value() == old(Value())
      ensures r == Err(NotFound) <==> MayAct(old(Value()), session) && target !in old(admins)
      ensures r.Ok? <==>
                MayAct(old(Value()), session) && target in old(admins) && old(admins)[target].role != SuperAdmin
      ensures r.Ok? ==>
                && admins == old(admins)[target := old(admins)[target].(active := false)]
                && requests == old(requests) && LoggedOut(old(sessions), sessions, target)
    {
      var caller := Guard(Value(), session);
      if caller.Err? {
        return Err(caller.error);
      }
      var refusal := CheckDeactivate(Value(), caller.value, target);
      if refusal.Some? {
        return Err(refusal.value);
      }
      admins := admins[target := admins[target].(active := false)];
      sessions := WithoutSessionsOf(sessions, target);
      r := Ok(());
    }

    method ActivateUser(session: SessionId, target: AdminId) returns (r: Result<(), Error>)
      modifies this
      ensures Value() == Apply(old(Value()), Activate(session, target))
      ensures r.Err? ==> Value() == old(Value())
      ensures r.Ok? ==> target in admins && admins[target].active
      ensures r.Ok? ==> requests == old(requests) && sessions == old(sessions)
      ensures r == Err(RoleTooLow) <==> LowerRole(old(Value()), session)
      ensures r == Err(Unauthorized) <==> !MayAct(old(Value()), session) && !LowerRole(old(Value()), session)
      ensures r.Ok? <==> MayAct(old(Value()), session) && target in old(admins)
      ensures r.Ok? ==> admins == old(admins)[target := old(admins)[target].(active := true)]
    {
      var caller := Guard(Value(), session);
      if caller.Err? {
        return Err(caller.error);
      }
      if target !in admins {
        return Err(NotFound);
      }
      admins := admins[target := admins[target].(active := true)];
      r := Ok(());
    }

    /** `id` is the fresh id of the new row. */
    method CreateUser(session: SessionId, id: AdminId, email: string, role: Role) returns (r: Result<(), Error>)
      requires id !in admins
      modifies this
      ensures Value() == Apply(old(Value()), Create(session, id, email, role))
      ensures r.Err? ==> Value() == old(Value())
      ensures r.Ok? ==> admins == old(admins)[id := Admin(email, role, true, role)]
      ensures r.Ok? ==> requests == old(requests) && sessions == old(sessions)
      ensures r.Ok? ==> forall a :: a in old(admins) ==> old(admins)[a].email != email
      ensures r == Err(RoleTooLow) <==> LowerRole(old(Value()), session)
      ensures r == Err(Unauthorized) <==> !MayAct(old(Value()), session) && !LowerRole(old(Value()), session)
      ensures r == Err(EmailInUse) <==>
              MayAct(old(Value()), session) && exists a :: a in old(admins) && old(admins)[a].email == email
    {
      var caller := Guard(Value(), session);
      if caller.Err? {
        return Err(caller.error);
      }
      var refusal := CheckCreate(Value(), email);
      if refusal.Some? {
        return Err(refusal.value);
      }
      admins := admins[id := Admin(email, role, true, role)];
      r := Ok(());
    }
  }

  // ----- The invariant over runs -----

  function ActiveSupers(s: State): set<AdminId>
  {
    set a | a in s.admins && s.admins[a].active && s.admins[a].role == SuperAdmin
  }

  /** Who requested, who approved, and that a request never targets a SUPER_ADMIN. */
  predicate RequestOk(s: State, q: Request)
  {
    && q.target in s.admins && q.previousRole != SuperAdmin
    && q.requestedBy != q.target && q.requestedBy in ActiveSupers(s)
    && (q.status == Approved ==>
          q.reviewedBy.Some? && q.reviewedBy.value != q.requestedBy && q.reviewedBy.value != q.target
          && q.reviewedBy.value in ActiveSupers(s))
    && (q.status == Pending ==> s.admins[q.target].role == q.previousRole)
  }

  /** The role of `target` after the approved requests, in creation order, starting from `r`. */
  function RoleAfter(requests: seq<Request>, target: AdminId, r: Role): Role
  {
    if requests == [] then r
    else
      var last := requests[|requests| - 1];
      if last.target == target && last.status == Approved then last.requestedRole
      else RoleAfter(requests[..|requests| - 1], target, r)
  }

  ghost predicate HistoryOk(s: State)
  {
    && (forall a :: a in s.admins ==> RoleAfter(s.requests, a, s.admins[a].createdRole) == s.admins[a].role)
    && (forall i :: 0 <= i < |s.requests| && s.requests[i].status == Approved && s.requests[i].target in s.admins ==>
          s.requests[i].previousRole
          == RoleAfter(s.requests[..i], s.requests[i].target, s.admins[s.requests[i].target].createdRole))
  }

  ghost predicate RequestsOk(s: State) { forall i :: 0 <= i < |s.requests| ==> RequestOk(s, s.requests[i]) }

  /** A pending request is the last one for its target. */
  ghost predicate PendingIsLast(requests: seq<Request>)
  {
    forall i, j :: 0 <= i < j < |requests| && requests[i].target == requests[j].target ==> requests[i].status != Pending
  }

  ghost predicate Inv(s: State) { RequestsOk(s) && PendingIsLast(s.requests) && HistoryOk(s) }

  lemma {:induction false} RoleAfterSkips(requests: seq<Request>, n: nat, target: AdminId, r: Role)
    requires n <= |requests|
    requires forall i :: n <= i < |requests| ==> requests[i].target != target || requests[i].status != Approved
    ensures RoleAfter(requests, target, r) == RoleAfter(requests[..n], target, r)
    decreases |requests|
  {
    if n < |requests| {
      var m := |requests| - 1;
      RoleAfterSkips(requests[..m], n, target, r);
      assert requests[..m][..n] == requests[..n];
    } else {
      assert requests[..n] == requests;
    }
  }

  /** Reviewing one request leaves other targets' histories alone. */
  lemma {:induction false} RoleAfterUpdate(requests: seq<Request>, k: nat, q: Request, target: AdminId, r: Role)
    requires k < |requests| && q.target == requests[k].target
    requires q.target != target || (q.status != Approved && requests[k].status != Approved)
    ensures RoleAfter(requests[k := q], target, r) == RoleAfter(requests, target, r)
    decreases |requests|
  {
    var m := |requests| - 1;
    if k < m {
      RoleAfterUpdate(requests[..m], k, q, target, r);
      assert requests[k := q][..m] == requests[..m][k := q];
    } else {
      assert requests[k := q][..m] == requests[..m];
    }
  }

  lemma {:induction false} RequestsSurvive(s: State, s': State)
    requires RequestsOk(s) && s'.requests == s.requests && ActiveSupers(s) <= ActiveSupers(s')
    requires forall a :: a in s.admins ==> a in s'.admins && s'.admins[a].role == s.admins[a].role
    ensures RequestsOk(s')
  {
    forall i | 0 <= i < |s'.requests| ensures RequestOk(s', s'.requests[i]) {
      assert RequestOk(s, s.requests[i]);
    }
  }

  /** Accounts change, but no role and no request does. */
  lemma {:induction false} AccountsInv(s: State, s': State)
    requires Inv(s) && s'.requests == s.requests && ActiveSupers(s) <= ActiveSupers(s')
    requires forall a :: a in s.admins ==> a in s'.admins && s'.admins[a].role == s.admins[a].role
                                            && s'.admins[a].createdRole == s.admins[a].createdRole
    requires forall a :: a in s'.admins && a !in s.admins ==> s'.admins[a].createdRole == s'.admins[a].role
    ensures Inv(s')
  {
    RequestsSurvive(s, s');
    forall a | a in s'.admins ensures RoleAfter(s'.requests, a, s'.admins[a].createdRole) == s'.admins[a].role {
      if a !in s.admins {
        forall i | 0 <= i < |s.requests| ensures s.requests[i].target != a {
          assert RequestOk(s, s.requests[i]);
        }
        RoleAfterSkips(s.requests, 0, a, s'.admins[a].createdRole);
      }
    }
    forall i | 0 <= i < |s.requests| ensures s.requests[i].target in s.admins {
      assert RequestOk(s, s.requests[i]);
    }
  }

  lemma {:induction false} RequestInv(s: State, caller: AdminId, target: AdminId, role: Role)
    requires Inv(s) && caller in ActiveSupers(s) && CheckRequest(s, caller, target, role).None?
    ensures Inv(Requested(s, caller, target, role))
  {
    var s' := Requested(s, caller, target, role);
    var n := |s.requests|;
    forall i | 0 <= i < |s'.requests| ensures RequestOk(s', s'.requests[i]) {
      if i < n { assert RequestOk(s, s.requests[i]); }
    }
    forall a | a in s'.admins ensures RoleAfter(s'.requests, a, s'.admins[a].createdRole) == s'.admins[a].role {
      RoleAfterSkips(s'.requests, n, a, s'.admins[a].createdRole);
      assert s'.requests[..n] == s.requests;
    }
    forall i | 0 <= i < |s'.requests| && s'.requests[i].status == Approved
      ensures s'.requests[..i] == s.requests[..i]
    {
    }
  }

  lemma {:induction false} RefuseInv(s: State, caller: AdminId, r: RequestId)
    requires Inv(s) && CheckReject(s, r).None?
    ensures Inv(Refused(s, caller, r))
  {
    var s' := Refused(s, caller, r);
    var q := s'.requests[r];
    forall i | 0 <= i < |s'.requests| ensures RequestOk(s', s'.requests[i]) {
      assert RequestOk(s, s.requests[i]);
    }
    forall a | a in s'.admins ensures RoleAfter(s'.requests, a, s'.admins[a].createdRole) == s'.admins[a].role {
      RoleAfterUpdate(s.requests, r, q, a, s.admins[a].createdRole);
    }
    forall i | 0 <= i < |s'.requests| && s'.requests[i].status == Approved
      ensures var a := s'.requests[i].target;
              a in s'.admins ==> s'.requests[i].previousRole == RoleAfter(s'.requests[..i], a, s'.admins[a].createdRole)
    {
      PrefixUpdate(s.requests, r, q, i);
      if r < i && s'.requests[i].target in s'.admins {
        RoleAfterUpdate(s.requests[..i], r, q, s'.requests[i].target, s.admins[s'.requests[i].target].createdRole);
      }
    }
  }

  lemma {:induction false} PrefixUpdate(requests: seq<Request>, k: nat, q: Request, i: nat)
    requires k < |requests| && i <= |requests|
    ensures requests[k := q][..i] == if k < i then requests[..i][k := q] else requests[..i]
  {
  }

  lemma {:induction false} OnlyPendingRequest(requests: seq<Request>, r: RequestId)
    requires PendingIsLast(requests) && r < |requests| && requests[r].status == Pending
    ensures forall i :: 0 <= i < |requests| && i != r && requests[i].target == requests[r].target ==>
              requests[i].status != Pending
  {
  }

  lemma {:induction false} ApproveRequestsOk(s: State, caller: AdminId, r: RequestId)
    requires Inv(s) && caller in ActiveSupers(s) && CheckApprove(s, caller, r).None?
    ensures var s' := Applied(s, caller, r);
            RequestsOk(s') && PendingIsLast(s'.requests) && ActiveSupers(s) <= ActiveSupers(s')
  {
    var s' := Applied(s, caller, r);
    assert RequestOk(s, s.requests[r]);
    OnlyPendingRequest(s.requests, r);
    forall i | 0 <= i < |s'.requests| ensures RequestOk(s', s'.requests[i]) {
      assert RequestOk(s, s.requests[i]);
    }
  }

  lemma {:induction false} ApproveInv(s: State, caller: AdminId, r: RequestId)
    requires Inv(s) && caller in ActiveSupers(s) && CheckApprove(s, caller, r).None?
    ensures Inv(Applied(s, caller, r)) && ActiveSupers(s) <= ActiveSupers(Applied(s, caller, r))
  {
    var s' := Applied(s, caller, r);
    var q := s'.requests[r];
    ApproveRequestsOk(s, caller, r);
    forall a | a in s'.admins ensures RoleAfter(s'.requests, a, s'.admins[a].createdRole) == s'.admins[a].role {
      if a == q.target {
        RoleAfterSkips(s'.requests, r + 1, a, s'.admins[a].createdRole);
        assert s'.requests[..r + 1][..r] == s'.requests[..r];
      } else {
        RoleAfterUpdate(s.requests, r, q, a, s.admins[a].createdRole);
      }
    }
    forall i | 0 <= i < |s'.requests| && s'.requests[i].status == Approved
      ensures var a := s'.requests[i].target;
              a in s'.admins ==> s'.requests[i].previousRole == RoleAfter(s'.requests[..i], a, s'.admins[a].createdRole)
    {
      PrefixUpdate(s.requests, r, q, i);
      var a := s'.requests[i].target;
      if i == r {
        RoleAfterSkips(s.requests, r, a, s.admins[a].createdRole);
      } else if r < i && a in s'.admins {
        RoleAfterUpdate(s.requests[..i], r, q, a, s.admins[a].createdRole);
      }
    }
  }

  lemma {:induction false} HandleInv(s: State, caller: AdminId, op: Op)
    requires Inv(s) && caller in ActiveSupers(s)
    ensures Inv(Handle(s, caller, op)) && ActiveSupers(s) <= ActiveSupers(Handle(s, caller, op))
  {
    var s' := Handle(s, caller, op);
    match op
    case Create(_, id, email, role) => AccountsInv(s, s');
    case RequestChange(_, target, role) =>
      if CheckRequest(s, caller, target, role).None? { RequestInv(s, caller, target, role); }
    case Approve(_, r) =>
      if CheckApprove(s, caller, r).None? { ApproveInv(s, caller, r); }
    case Reject(_, r) =>
      if CheckReject(s, r).None? { RefuseInv(s, caller, r); }
    case Deactivate(_, target) => AccountsInv(s, s');
    case Activate(_, target) => AccountsInv(s, s');
    case _ =>
  }

  lemma {:induction false} ApplyInv(s: State, op: Op)
    requires Inv(s)
    ensures Inv(Apply(s, op)) && ActiveSupers(s) <= ActiveSupers(Apply(s, op))
  {
    if op.Login? || op.Logout? {
      AccountsInv(s, Apply(s, op));
    } else if Guard(s, op.session).Ok? {
      HandleInv(s, Guard(s, op.session).value, op);
    }
  }

  lemma {:induction false} RunInv(start: State, ops: seq<Op>)
    requires Initial(start)
    ensures Inv(Run(start, ops))
    decreases |ops|
  {
    if ops != [] {
      RunInv(start, ops[..|ops| - 1]);
      ApplyInv(Run(start, ops[..|ops| - 1]), ops[|ops| - 1]);
    }
  }

  // ----- Main results -----

  /** The active SUPER_ADMIN accounts never shrink over a run. */
  lemma {:induction false} SupersNeverShrink(start: State, ops: seq<Op>, i: nat)
    requires Initial(start) && i <= |ops|
    ensures ActiveSupers(Run(start, ops[..i])) <= ActiveSupers(Run(start, ops))
    decreases |ops|
  {
    if i < |ops| {
      var n := |ops| - 1;
      assert ops[..n][..i] == ops[..i];
      SupersNeverShrink(start, ops[..n], i);
      RunInv(start, ops[..n]);
      ApplyInv(Run(start, ops[..n]), ops[n]);
    } else {
      assert ops[..i] == ops;
    }
  }

  /** Four eyes: an approved change names two distinct accounts, neither the target, both active SUPER_ADMINs now. */
  lemma {:induction false} FourEyesHolds(start: State, ops: seq<Op>, r: RequestId)
    requires Initial(start)
    requires r < |Run(start, ops).requests| && Run(start, ops).requests[r].status == Approved
    ensures var s := Run(start, ops); var q := s.requests[r];
            && q.reviewedBy.Some? && q.requestedBy != q.reviewedBy.value
            && q.requestedBy != q.target && q.reviewedBy.value != q.target
            && {q.requestedBy, q.reviewedBy.value} <= ActiveSupers(s)
  {
    RunInv(start, ops);
    assert RequestOk(Run(start, ops), Run(start, ops).requests[r]);
  }

  /** Requests are never removed, and never change target, roles or requester. */
  ghost predicate RequestsKept(requests: seq<Request>, requests': seq<Request>)
  {
    && |requests| <= |requests'|
    && forall i :: 0 <= i < |requests| ==>
         && requests'[i].target == requests[i].target && requests'[i].previousRole == requests[i].previousRole
         && requests'[i].requestedRole == requests[i].requestedRole
         && requests'[i].requestedBy == requests[i].requestedBy
  }

  lemma {:induction false} ApplyKeepsRequests(s: State, op: Op)
    ensures RequestsKept(s.requests, Apply(s, op).requests)
  {
  }

  /** The operation at `i` asked for this change and created request `r`. */
  ghost predicate AskedFor(start: State, ops: seq<Op>, i: nat, r: RequestId, q: Request)
  {
    && i < |ops| && ops[i].RequestChange? && r == |Run(start, ops[..i]).requests|
    && var s := Run(start, ops[..i]);
       && MayAct(s, ops[i].session) && q.requestedBy == s.sessions[ops[i].session]
       && q.target == ops[i].target && q.requestedRole == ops[i].role
       && q.target in s.admins && q.previousRole == s.admins[q.target].role
  }

  lemma {:induction false} NewRequest(s: State, op: Op)
    requires |s.requests| < |Apply(s, op).requests|
    ensures |Apply(s, op).requests| == |s.requests| + 1 && op.RequestChange? && MayAct(s, op.session)
    ensures op.target in s.admins
    ensures Apply(s, op).requests[|s.requests|]
            == Request(op.target, s.admins[op.target].role, op.role, Pending, s.sessions[op.session], None)
  {
  }

  /** Every request holds what the operation that created it asked for. */
  lemma {:induction false} RequestOrigin(start: State, ops: seq<Op>, r: RequestId) returns (i: nat)
    requires Initial(start) && r < |Run(start, ops).requests|
    ensures AskedFor(start, ops, i, r, Run(start, ops).requests[r])
    decreases |ops|
  {
    assert ops != [];
    var n := |ops| - 1;
    var before := Run(start, ops[..n]);
    ApplyKeepsRequests(before, ops[n]);
    if r < |before.requests| {
      i := RequestOrigin(start, ops[..n], r);
      assert ops[..n][..i] == ops[..i];
    } else {
      NewRequest(before, ops[n]);
      i := n;
    }
  }

  lemma {:induction false} NewlyApproved(s: State, op: Op, r: RequestId)
    requires r < |Apply(s, op).requests| && Apply(s, op).requests[r].status == Approved
    requires r < |s.requests| ==> s.requests[r].status != Approved
    ensures op.Approve? && op.request == r && MayAct(s, op.session)
    ensures var s' := Apply(s, op); var q := s'.requests[r];
            && q.reviewedBy == Some(s.sessions[op.session])
            && q.target in s'.admins && s'.admins[q.target].role == q.requestedRole
  {
  }

  /** An approved request was approved by an operation that gave its target exactly the role its creator asked for. */
  lemma {:induction false} ApprovalGivesAskedRole(start: State, ops: seq<Op>, r: RequestId) returns (i: nat, j: nat)
    requires Initial(start) && r < |Run(start, ops).requests| && Run(start, ops).requests[r].status == Approved
    ensures AskedFor(start, ops, i, r, Run(start, ops).requests[r])
    ensures j < |ops| && ops[j].Approve? && ops[j].request == r
    ensures var s, s' := Run(start, ops[..j]), Run(start, ops[..j + 1]);
            && MayAct(s, ops[j].session)
            && Run(start, ops).requests[r].reviewedBy == Some(s.sessions[ops[j].session])
            && ops[i].target in s'.admins && s'.admins[ops[i].target].role == ops[i].role
  {
    i := RequestOrigin(start, ops, r);
    j := ApprovalOrigin(start, ops, r);
  }

  lemma {:induction false} ApprovalOrigin(start: State, ops: seq<Op>, r: RequestId) returns (j: nat)
    requires Initial(start) && r < |Run(start, ops).requests| && Run(start, ops).requests[r].status == Approved
    ensures j < |ops| && ops[j].Approve? && ops[j].request == r
    ensures var s, s', q := Run(start, ops[..j]), Run(start, ops[..j + 1]), Run(start, ops).requests[r];
            && MayAct(s, ops[j].session) && q.reviewedBy == Some(s.sessions[ops[j].session])
            && q.target in s'.admins && s'.admins[q.target].role == q.requestedRole
    decreases |ops|
  {
    assert ops != [];
    var n := |ops| - 1;
    var before := Run(start, ops[..n]);
    ApplyKeepsRequests(before, ops[n]);
    if r < |before.requests| && before.requests[r].status == Approved {
      j := ApprovalOrigin(start, ops[..n], r);
      assert ops[..n][..j] == ops[..j] && ops[..n][..j + 1] == ops[..j + 1];
      ApprovedStays(before, ops[n], r);
    } else {
      NewlyApproved(before, ops[n], r);
      j := n;
      assert ops[..n + 1] == ops;
    }
  }

  lemma {:induction false} ApprovedStays(s: State, op: Op, r: RequestId)
    requires r < |s.requests| && s.requests[r].status == Approved
    ensures r < |Apply(s, op).requests| && Apply(s, op).requests[r] == s.requests[r]
  {
  }

  /** Each target has at most one pending request, and it was made from the target's current role. */
  lemma {:induction false} PendingIsCurrent(start: State, ops: seq<Op>, i: RequestId, j: RequestId)
    requires Initial(start)
    requires i < |Run(start, ops).requests| && j < |Run(start, ops).requests|
    requires Run(start, ops).requests[i].status == Pending && Run(start, ops).requests[j].status == Pending
    requires Run(start, ops).requests[i].target == Run(start, ops).requests[j].target
    ensures i == j
    ensures var s := Run(start, ops);
            && s.requests[i].target in s.admins
            && s.requests[i].previousRole == s.admins[s.requests[i].target].role
  {
    RunInv(start, ops);
    assert RequestOk(Run(start, ops), Run(start, ops).requests[i]);
  }

  /** The stale-role conflict of an approval never fires. */
  lemma {:induction false} StaleRoleNeverFires(start: State, ops: seq<Op>, caller: AdminId, r: RequestId)
    requires Initial(start)
    ensures CheckApprove(Run(start, ops), caller, r) != Some(StaleRole)
  {
    RunInv(start, ops);
    if r < |Run(start, ops).requests| {
      assert RequestOk(Run(start, ops), Run(start, ops).requests[r]);
    }
  }

  /** The approved requests, in order, link the role at creation to the current role. */
  lemma {:induction false} RoleHistoryIsChain(start: State, ops: seq<Op>, a: AdminId)
    requires Initial(start) && a in Run(start, ops).admins
    ensures var s := Run(start, ops); var created := s.admins[a].createdRole;
            && RoleAfter(s.requests, a, created) == s.admins[a].role
            && forall i :: 0 <= i < |s.requests| && s.requests[i].target == a && s.requests[i].status == Approved ==>
                 s.requests[i].previousRole == RoleAfter(s.requests[..i], a, created)
  {
    RunInv(start, ops);
  }
}
