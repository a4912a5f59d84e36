/**
  The propose / approve / execute-once protocol of `tools/executor.py`.

  `Db` is the committed database state.  Every request is one transaction, so a run of the
  system is a sequence of whole steps; `AfterCall`, `AfterApprove` and `AfterReject` give the
  state each one commits, and the class `Executor` performs the same transactions by updating
  its fields.
 */
module Approvals {
  import opened Common
  import opened Audit

  type UserId = string
  type ActionId = nat

  datatype User = User(role: string, permissions: set<Permission>, active: bool)

  /** A caller as loaded from the database when the request was authenticated. */
  datatype Principal = Principal(userId: UserId, role: string, permissions: set<Permission>)

  datatype Pending = Pending(
    requester: UserId,
    tool: ToolName,
    arguments: Arguments,
    hash: Digest,
    approvePermission: Option<Permission>,
    expiresAt: int,
    status: Status,
    approver: Option<UserId>,
    profile: Option<nat>,
    decidedAt: Option<int>,
    executedAt: Option<int>)

  datatype Profile = Profile(
    employee: UserId, days: int, requestedBy: UserId, approvedBy: UserId, actionId: ActionId, expiresAt: int)

  datatype Db = Db(
    now: int,
    users: map<UserId, User>,
    pendings: map<ActionId, Pending>,
    profiles: map<nat, Profile>,
    nextProfile: nat,
    writes: seq<(Entry, int)>)

  // ------------------------------------------------------------------ tools

  const PENDING_TTL := 24 * 60 * 60
  const DAY := 24 * 60 * 60
  const MAX_VPN_DAYS := 30

  datatype ToolSpec = ToolSpec(permission: Option<Permission>, sensitive: bool, approvePermission: Option<Permission>)

  function Tool(name: ToolName): Option<ToolSpec> {
    match name
    case SearchDocs => Some(ToolSpec(None, false, None))
    case ServerStatus => Some(ToolSpec(Some(ServerRead), false, None))
    case CreateTicket => Some(ToolSpec(Some(TicketCreate), false, None))
    case GetTicket => Some(ToolSpec(Some(TicketCreate), false, None))
    case CreateVpn => Some(ToolSpec(Some(VpnCreate), true, Some(VpnApprove)))
    case UnknownTool(_) => None
  }

  predicate Authorized(permissions: set<Permission>, spec: ToolSpec) {
    spec.permission.Some? ==> spec.permission.value in permissions
  }

  predicate Holds(p: Principal, permission: Option<Permission>) {
    permission.Some? && permission.value in p.permissions
  }

  /** Arguments the schema of the VPN tool accepts. */
  predicate IsVpnArgs(a: Arguments) {
    a.VpnArguments? && 1 <= a.days <= MAX_VPN_DAYS
  }

  function AsJson(a: Arguments): Json {
    match a
    case OtherArguments(json) => json
    case VpnArguments(ById(id), days) =>
      Obj(map["employee_id" := Str(id), "employee_name" := Null, "duration_days" := Num(days)])
    case VpnArguments(ByName(name), days) =>
      Obj(map["employee_id" := Null, "employee_name" := Str(name), "duration_days" := Num(days)])
  }

  /** The outcome of checking raw arguments against a tool's schema. */
  datatype Checked = Valid(arguments: Arguments) | Invalid(reason: string)

  /** What a handler other than the VPN one reports; its own records are not modelled.  A handler
      crashes when it raises neither kind of tool error, as a search does when the question
      cannot be embedded. */
  datatype Reply = Done(result: Json) | Refused(reason: Complaint) | Broke(reason: Complaint) | Crashed

  /** Employee lookup: by id, or by the rows `found` that a name search returned. */
  datatype Lookup = Employee(id: UserId) | Missing(reason: Complaint)

  function Resolve(users: map<UserId, User>, arguments: Arguments, found: seq<UserId>): Lookup
    requires IsVpnArgs(arguments)
  {
    match arguments.subject
    case ById(id) => if id in users then Employee(id) else Missing(NoEmployeeWithId(id))
    case ByName(name) =>
      if |found| == 0 then Missing(NoEmployeeNamed(name))
      else if |found| > 1 then Missing(SeveralEmployees(name))
      else Employee(found[0])
  }

  /** `principal_of`: only an active user has permissions. */
  function PrincipalOf(users: map<UserId, User>, id: UserId): Option<Principal> {
    if id in users && users[id].active then Some(Principal(id, users[id].role, users[id].permissions)) else None
  }

  datatype OutcomeStatus = Ok | Denied | Proposed | Errored

  // ------------------------------------------------------------------ audit entries

  function CallEntry(p: Principal, requestId: string, tool: ToolName, d: Decision, arguments: Json,
                     reason: Option<Reason>, result: Json, id: Option<ActionId>, hash: Option<Digest>): Entry {
    Entry(requestId, p.userId, p.role, ToolCall, d, Some(tool), arguments, reason, result, id, hash)
  }

  function ApprovalEntry(p: Principal, requestId: string, tool: Option<ToolName>, d: Decision, arguments: Json,
                         reason: Reason, result: Json, id: ActionId, hash: Option<Digest>): Entry {
    Entry(requestId, p.userId, p.role, Approval, d, tool, arguments, Some(reason), result, Some(id), hash)
  }

  function Logged(s: Db, e: Entry): Db {
    s.(writes := s.writes + [(e, s.now)])
  }

  // ------------------------------------------------------------------ specification: run_tool

  function NewPending(now: int, p: Principal, tool: ToolName, arguments: Arguments, spec: ToolSpec): Pending {
    Pending(p.userId, tool, arguments, ActionDigest(tool, arguments, p.userId),
            spec.approvePermission, now + PENDING_TTL, Waiting, None, None, None, None)
  }

  /** What one call of `run_tool` does; an aborted one is rolled back and its exception goes on. */
  datatype CallResult =
    | CallResult(status: OutcomeStatus, entry: Entry, proposal: Option<Pending>)
    | Aborted

  function StatusOfCall(r: CallResult): Option<OutcomeStatus> {
    if r.Aborted? then None else Some(r.status)
  }

  function JudgeCall(now: int, p: Principal, tool: ToolName, raw: Json, checked: Checked, reply: Reply,
                     newId: ActionId, requestId: string): CallResult {
    var spec := Tool(tool);
    if spec.None? then
      CallResult(Denied, CallEntry(p, requestId, tool, Deny, Null, Some(NotAnAvailableTool), Null, None, None), None)
    else if checked.Invalid? then
      CallResult(Errored, CallEntry(p, requestId, tool, Deny, raw, Some(InvalidArguments(checked.reason)), Null, None, None), None)
    else if !Authorized(p.permissions, spec.value) then
      CallResult(Denied, CallEntry(p, requestId, tool, Deny, AsJson(checked.arguments),
                                   Some(Requires(spec.value.permission.value)), Null, None, None), None)
    else if spec.value.sensitive then
      var pending := NewPending(now, p, tool, checked.arguments, spec.value);
      CallResult(Proposed, CallEntry(p, requestId, tool, Await, AsJson(checked.arguments),
                                     Some(AwaitingApprovalBy(spec.value.approvePermission)), Null,
                                     Some(newId), Some(pending.hash)), Some(pending))
    else
      match reply
      case Refused(why) =>
        CallResult(Denied, CallEntry(p, requestId, tool, Deny, AsJson(checked.arguments), Some(HandlerSaid(why)), Null, None, None), None)
      case Broke(why) =>
        CallResult(Errored, CallEntry(p, requestId, tool, Error, AsJson(checked.arguments), Some(HandlerSaid(why)), Null, None, None), None)
      case Done(result) =>
        CallResult(Ok, CallEntry(p, requestId, tool, Ran, AsJson(checked.arguments), None, result, None, None), None)
      case Crashed => Aborted
  }

  /** The only effects of `run_tool`: one audit row and, for a valid, permitted call of a
      sensitive tool, one waiting action; of an aborted call, none. */
  function AfterCall(s: Db, newId: ActionId, r: CallResult): Db {
    if r.Aborted? then s
    else Logged(if r.proposal.Some? then s.(pendings := s.pendings[newId := r.proposal.value]) else s, r.entry)
  }

  // ------------------------------------------------------------------ specification: approve_pending

  /** Why an approval is refused, or that it runs. */
  datatype Verdict =
    | NoSuchAction
    | AlreadyDecided
    | TooLate
    | NoPermission
    | SelfApproval
    | WrongHash
    | RequesterLostPermission
    | HandlerFailed(reason: Complaint)
    | Runs(employee: UserId)

  predicate StillAuthorized(users: map<UserId, User>, p: Pending) {
    var requester := PrincipalOf(users, p.requester);
    requester.Some? && Tool(p.tool).Some? && Authorized(requester.value.permissions, Tool(p.tool).value)
  }

  function Judge(s: Db, approver: Principal, id: ActionId, confirm: Digest, found: seq<UserId>): Verdict
    requires id in s.pendings ==> IsVpnArgs(s.pendings[id].arguments)
  {
    if id !in s.pendings then NoSuchAction
    else if s.pendings[id].status != Waiting then AlreadyDecided
    else if s.pendings[id].expiresAt < s.now then TooLate
    else JudgeConfirmation(s.users, s.pendings[id], approver, confirm, found)
  }

  function JudgeConfirmation(users: map<UserId, User>, p: Pending, approver: Principal, confirm: Digest,
                             found: seq<UserId>): Verdict
    requires IsVpnArgs(p.arguments)
  {
    if !Holds(approver, p.approvePermission) then NoPermission
    else if approver.userId == p.requester then SelfApproval
    else if confirm != p.hash then WrongHash
    else if !StillAuthorized(users, p) then RequesterLostPermission
    else JudgeHandler(users, p, found)
  }

  function JudgeHandler(users: map<UserId, User>, p: Pending, found: seq<UserId>): Verdict
    requires IsVpnArgs(p.arguments)
  {
    match Resolve(users, p.arguments, found)
    case Missing(why) => HandlerFailed(why)
    case Employee(e) => Runs(e)
  }

  function StatusOf(v: Verdict): OutcomeStatus {
    if v.Runs? then Ok else if v.HandlerFailed? then Errored else Denied
  }

  function VpnResult(number: nat, employee: UserId, expiresAt: int): Json {
    Obj(map["profile_id" := Num(number), "employee_id" := Str(employee), "expires_at" := Num(expiresAt)])
  }

  function Denial(approver: Principal, requestId: string, p: Pending, id: ActionId, why: Reason, shown: Option<Digest>): Entry {
    ApprovalEntry(approver, requestId, Some(p.tool), Deny, Null, why, Null, id, shown)
  }

  function Settled(s: Db, id: ActionId, status: Status): Db
    requires id in s.pendings
  {
    s.(pendings := s.pendings[id := s.pendings[id].(status := status, decidedAt := Some(s.now))])
  }

  /** The audit entry for a verdict on a stored action. */
  function VerdictEntry(s: Db, approver: Principal, id: ActionId, requestId: string, v: Verdict): Entry
    requires !v.NoSuchAction? ==> id in s.pendings && IsVpnArgs(s.pendings[id].arguments)
  {
    if v.NoSuchAction? then
      ApprovalEntry(approver, requestId, None, Deny, Null, NoSuchPendingAction, Null, id, None)
    else
      var p := s.pendings[id];
      match v
      case AlreadyDecided => Denial(approver, requestId, p, id, AlreadySettled(p.status), None)
      case TooLate => Denial(approver, requestId, p, id, PastItsExpiry, None)
      case NoPermission => Denial(approver, requestId, p, id, ApproverLacks(p.approvePermission), Some(p.hash))
      case SelfApproval => Denial(approver, requestId, p, id, SamePerson, Some(p.hash))
      case WrongHash => Denial(approver, requestId, p, id, ConfirmationMismatch, None)
      case RequesterLostPermission => Denial(approver, requestId, p, id, RequesterLostIt, Some(p.hash))
      case HandlerFailed(why) =>
        ApprovalEntry(approver, requestId, Some(p.tool), Error, Null, HandlerSaid(why), Null, id, Some(p.hash))
      case Runs(employee) => ExecutionEntry(approver, requestId, p, id, s.nextProfile, employee, s.now)
  }

  /** What a verdict does to the stored actions and profiles. */
  function Enact(s: Db, approver: Principal, id: ActionId, v: Verdict): Db
    requires !v.NoSuchAction? ==> id in s.pendings && IsVpnArgs(s.pendings[id].arguments)
  {
    match v
    case TooLate => Settled(s, id, Expired)
    case RequesterLostPermission => Settled(s, id, Rejected)
    case HandlerFailed(_) => Settled(s, id, Failed)
    case Runs(employee) => Enacted(s, approver, id, employee)
    case _ => s
  }

  function Commit(s: Db, approver: Principal, id: ActionId, requestId: string, v: Verdict): Db
    requires !v.NoSuchAction? ==> id in s.pendings && IsVpnArgs(s.pendings[id].arguments)
  {
    Logged(Enact(s, approver, id, v), VerdictEntry(s, approver, id, requestId, v))
  }

  function Days(p: Pending): int
    requires IsVpnArgs(p.arguments)
  {
    p.arguments.days
  }

  function ExecutionEntry(approver: Principal, requestId: string, p: Pending, id: ActionId, number: nat, employee: UserId,
                          now: int): Entry
    requires IsVpnArgs(p.arguments)
  {
    ApprovalEntry(approver, requestId, Some(p.tool), Ran, AsJson(p.arguments), ApprovedFor(approver.userId, p.requester),
                  VpnResult(number, employee, now + Days(p) * DAY), id, Some(p.hash))
  }

  function Closed(p: Pending, approver: UserId, number: nat, now: int): Pending {
    p.(status := Executed, approver := Some(approver), profile := Some(number), decidedAt := Some(now), executedAt := Some(now))
  }

  /** The execution itself: one profile, and the action that created it. */
  function Enacted(s: Db, approver: Principal, id: ActionId, employee: UserId): Db
    requires id in s.pendings && IsVpnArgs(s.pendings[id].arguments)
  {
    var p := s.pendings[id];
    var n := s.nextProfile;
    s.(pendings := s.pendings[id := Closed(p, approver.userId, n, s.now)],
       profiles := s.profiles[n := Profile(employee, Days(p), p.requester, approver.userId, id, s.now + Days(p) * DAY)],
       nextProfile := n + 1)
  }

  function AfterApprove(s: Db, approver: Principal, id: ActionId, confirm: Digest, found: seq<UserId>, requestId: string): Db
    requires id in s.pendings ==> IsVpnArgs(s.pendings[id].arguments)
  {
    Commit(s, approver, id, requestId, Judge(s, approver, id, confirm, found))
  }

  // ------------------------------------------------------------------ specification: reject_pending

  predicate MayReject(s: Db, p: Principal, id: ActionId) {
    && id in s.pendings && s.pendings[id].status == Waiting
    && (Holds(p, s.pendings[id].approvePermission) || p.userId == s.pendings[id].requester)
  }

  function AfterReject(s: Db, p: Principal, id: ActionId, reason: Option<string>, requestId: string): Db {
    if !MayReject(s, p, id) then s
    else
      var was := s.pendings[id];
      Logged(s.(pendings := s.pendings[id := was.(status := Rejected, approver := Some(p.userId), decidedAt := Some(s.now))]),
             ApprovalEntry(p, requestId, Some(was.tool), Deny, Null,
                           RejectedBecause(reason), Null, id, Some(was.hash)))
  }

  // ------------------------------------------------------------------ the transactions

  class Executor {
    var now: int
    var users: map<UserId, User>
    var pendings: map<ActionId, Pending>
    var profiles: map<nat, Profile>
    var nextProfile: nat
    var log: seq<Row>
    ghost var writes: seq<(Entry, int)>

    /** The stored rows are the chain built from everything written so far. */
    ghost predicate Valid()
      reads this
    {
      BuiltBy(log, writes)
    }

    ghost function Committed(): Db
      reads this
    {
      Db(now, users, pendings, profiles, nextProfile, writes)
    }

    constructor (users: map<UserId, User>, now: int)
      ensures Valid() && Committed() == Db(now, users, map[], map[], 1, [])
    {
      this.now, this.users, this.pendings, this.profiles := now, users, map[], map[];
      this.nextProfile, this.log, this.writes := 1, [], [];
    }

    /** Appends inside the caller's transaction. */
    method Append(e: Entry)
      requires Valid()
      modifies this`log, this`writes
      ensures Valid() && Committed() == Logged(old(Committed()), e)
    {
      var prev := Genesis;
      if |log| > 0 {
        prev := log[|log| - 1].hash;
      }
      log := log + [Row(|log| + 1, now, e.(arguments := Redact(e.arguments), result := Redact(e.result)),
                        prev, RecordHash(prev, e, now))];
      writes := writes + [(e, now)];
      assert forall i :: 0 <= i < |log| ==> log[..i] == old(log)[..i];
    }

    method RunTool(p: Principal, tool: ToolName, raw: Json, checked: Checked, reply: Reply, newId: ActionId,
                   requestId: string) returns (status: Option<OutcomeStatus>)
      requires Valid()
      modifies this`pendings, this`log, this`writes
      ensures Valid()
      ensures var r := JudgeCall(now, p, tool, raw, checked, reply, newId, requestId);
        status == StatusOfCall(r) && Committed() == AfterCall(old(Committed()), newId, r)
    {
      var spec := Tool(tool);
      if spec == None {
        Append(CallEntry(p, requestId, tool, Deny, Null, Some(NotAnAvailableTool), Null, None, None));
        return Some(Denied);
      }
      if checked.Invalid? {
        Append(CallEntry(p, requestId, tool, Deny, raw, Some(InvalidArguments(checked.reason)), Null, None, None));
        return Some(Errored);
      }
      var arguments := checked.arguments;
      if !Authorized(p.permissions, spec.value) {
        Append(CallEntry(p, requestId, tool, Deny, AsJson(arguments),
                         Some(Requires(spec.value.permission.value)), Null, None, None));
        return Some(Denied);
      }
      if spec.value.sensitive {
        var digest := ActionDigest(tool, arguments, p.userId);
        pendings := pendings[newId := Pending(p.userId, tool, arguments, digest, spec.value.approvePermission, now + PENDING_TTL,
                                              Waiting, None, None, None, None)];
        Append(CallEntry(p, requestId, tool, Await, AsJson(arguments), Some(AwaitingApprovalBy(spec.value.approvePermission)), Null, Some(newId), Some(digest)));
        return Some(Proposed);
      }
      match reply {
        case Refused(why) =>
          Append(CallEntry(p, requestId, tool, Deny, AsJson(arguments), Some(HandlerSaid(why)), Null, None, None));
          return Some(Denied);
        case Broke(why) =>
          Append(CallEntry(p, requestId, tool, Error, AsJson(arguments), Some(HandlerSaid(why)), Null, None, None));
          return Some(Errored);
        case Done(result) =>
          Append(CallEntry(p, requestId, tool, Ran, AsJson(arguments), None, result, None, None));
          return Some(Ok);
        case Crashed =>
          return None;
      }
    }

    /** The VPN handler.  Until the approval fills them in, the new profile names the
        requester as approver and carries a throw-away action id. */
    method CreateVpnProfile(requester: UserId, arguments: Arguments, found: seq<UserId>, placeholder: ActionId)
      returns (lookup: Lookup, number: nat)
      requires IsVpnArgs(arguments)
      modifies this`profiles, this`nextProfile
      ensures lookup == Resolve(users, arguments, found)
      ensures lookup.Missing? ==> profiles == old(profiles) && nextProfile == old(nextProfile)
      ensures lookup.Employee? ==>
        var days := arguments.days;
        number == old(nextProfile) && nextProfile == number + 1
        && profiles == old(profiles)[number := Profile(lookup.id, days, requester, requester, placeholder, now + days * DAY)]
    {
      number := nextProfile;
      lookup := Resolve(users, arguments, found);
      if lookup.Missing? {
        return;
      }
      nextProfile := nextProfile + 1;
      var days := arguments.days;
      profiles := profiles[number := Profile(lookup.id, days, requester, requester, placeholder, now + days * DAY)];
    }

    method ApprovePending(approver: Principal, id: ActionId, confirm: Digest, found: seq<UserId>,
                          placeholder: ActionId, requestId: string) returns (status: OutcomeStatus)
      requires Valid()
      requires id in pendings ==> IsVpnArgs(pendings[id].arguments)
      modifies this`pendings, this`profiles, this`nextProfile, this`log, this`writes
      ensures Valid()
      ensures Committed() == AfterApprove(old(Committed()), approver, id, confirm, found, requestId)
      ensures status == StatusOf(Judge(old(Committed()), approver, id, confirm, found))
    {
      if id !in pendings {
        Append(ApprovalEntry(approver, requestId, None, Deny, Null, NoSuchPendingAction, Null, id, None));
        return Denied;
      }
      var p := pendings[id];
      if p.status != Waiting {
        Append(Denial(approver, requestId, p, id, AlreadySettled(p.status), None));
        return Denied;
      }
      if p.expiresAt < now {
        pendings := pendings[id := p.(status := Expired, decidedAt := Some(now))];
        Append(Denial(approver, requestId, p, id, PastItsExpiry, None));
        return Denied;
      }
      status := Confirm(approver, id, confirm, found, placeholder, requestId);
    }

    /** `approve_pending` from the approver's checks on. */
    method Confirm(approver: Principal, id: ActionId, confirm: Digest, found: seq<UserId>,
                   placeholder: ActionId, requestId: string) returns (status: OutcomeStatus)
      requires Valid()
      requires id in pendings && IsVpnArgs(pendings[id].arguments)
      modifies this`pendings, this`profiles, this`nextProfile, this`log, this`writes
      ensures Valid()
      ensures var v := JudgeConfirmation(old(users), old(pendings)[id], approver, confirm, found);
        Committed() == Commit(old(Committed()), approver, id, requestId, v) && status == StatusOf(v)
    {
      var p := pendings[id];
      if !Holds(approver, p.approvePermission) {
        Append(Denial(approver, requestId, p, id, ApproverLacks(p.approvePermission), Some(p.hash)));
        return Denied;
      }
      if approver.userId == p.requester {
        Append(Denial(approver, requestId, p, id, SamePerson, Some(p.hash)));
        return Denied;
      }
      if confirm != p.hash {
        Append(Denial(approver, requestId, p, id, ConfirmationMismatch, None));
        return Denied;
      }
      if !StillAuthorized(users, p) {
        pendings := pendings[id := p.(status := Rejected, decidedAt := Some(now))];
        Append(Denial(approver, requestId, p, id, RequesterLostIt, Some(p.hash)));
        return Denied;
      }
      status := Execute(approver, id, found, placeholder, requestId);
    }

    /** `approve_pending` from the handler call on. */
    method Execute(approver: Principal, id: ActionId, found: seq<UserId>, placeholder: ActionId, requestId: string)
      returns (status: OutcomeStatus)
      requires Valid()
      requires id in pendings && IsVpnArgs(pendings[id].arguments)
      modifies this`pendings, this`profiles, this`nextProfile, this`log, this`writes
      ensures Valid()
      ensures var v := JudgeHandler(old(users), old(pendings)[id], found);
        Committed() == Commit(old(Committed()), approver, id, requestId, v) && status == StatusOf(v)
    {
      var p := pendings[id];
      var lookup, number := CreateVpnProfile(p.requester, p.arguments, found, placeholder);
      if lookup.Missing? {
        pendings := pendings[id := p.(status := Failed, decidedAt := Some(now))];
        Append(ApprovalEntry(approver, requestId, Some(p.tool), Error, Null, HandlerSaid(lookup.reason), Null, id, Some(p.hash)));
        return Errored;
      }
      RecordExecution(approver, id, number);
      assert Committed() == Enacted(old(Committed()), approver, id, lookup.id);
      Append(ExecutionEntry(approver, requestId, p, id, number, lookup.id, now));
      return Ok;
    }

    /** Fills in who approved the new profile and closes the action. */
    method RecordExecution(approver: Principal, id: ActionId, number: nat)
      requires id in pendings && number in profiles
      modifies this`pendings, this`profiles
      ensures pendings == old(pendings)[id := Closed(old(pendings)[id], approver.userId, number, now)]
      ensures profiles == old(profiles)[number := old(profiles)[number].(approvedBy := approver.userId, actionId := id)]
    {
      profiles := profiles[number := profiles[number].(approvedBy := approver.userId, actionId := id)];
      pendings := pendings[id := pendings[id].(status := Executed, approver := Some(approver.userId), profile := Some(number),
                                               decidedAt := Some(now), executedAt := Some(now))];
    }

    /** True when the action was rejected; the source answers "denied" either way. */
    method RejectPending(p: Principal, id: ActionId, reason: Option<string>, requestId: string) returns (rejected: bool)
      requires Valid()
      modifies this`pendings, this`log, this`writes
      ensures Valid()
      ensures Committed() == AfterReject(old(Committed()), p, id, reason, requestId)
      ensures rejected <==> MayReject(old(Committed()), p, id)
    {
      if id !in pendings || pendings[id].status != Waiting {
        return false;
      }
      var was := pendings[id];
      if !Holds(p, was.approvePermission) && p.userId != was.requester {
        return false;
      }
      pendings := pendings[id := was.(status := Rejected, approver := Some(p.userId), decidedAt := Some(now))];
      Append(ApprovalEntry(p, requestId, Some(was.tool), Deny, Null, RejectedBecause(reason), Null, id, Some(was.hash)));
      return true;
    }
  }
}
