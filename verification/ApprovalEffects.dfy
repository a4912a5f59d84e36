/**
  What every request to the approval protocol does, from the request and the stored state alone,
  and whom the protocol's results name over whole runs.
 */
module ApprovalEffects {
  import opened Common
  import opened Audit
  import opened Approvals
  import opened ApprovalRuns

  // ------------------------------------------------------------------ employees

  /** The arguments of a VPN request name this employee: by an id in the users table, or by a name
      for which the search found exactly one row. */
  predicate Names(users: map<UserId, User>, subject: Subject, found: seq<UserId>, employee: UserId) {
    match subject
    case ById(id) => employee == id && id in users
    case ByName(_) => found == [employee]
  }

  lemma ResolveNames(users: map<UserId, User>, arguments: Arguments, found: seq<UserId>, employee: UserId)
    requires IsVpnArgs(arguments)
    ensures Resolve(users, arguments, found) == Employee(employee) <==> Names(users, arguments.subject, found, employee)
  {
  }

  /** Why the arguments name nobody. */
  predicate IsComplaint(subject: Subject, found: seq<UserId>, why: Complaint) {
    match subject
    case ById(id) => why == NoEmployeeWithId(id)
    case ByName(name) => why == if found == [] then NoEmployeeNamed(name) else SeveralEmployees(name)
  }

  // ------------------------------------------------------------------ approvals

  /** The action waits, is in time, and someone else who may approve it confirms what is stored. */
  predicate Confirms(s: Db, e: Event)
    requires e.Approve?
  {
    && e.id in s.pendings && s.pendings[e.id].status == Waiting && s.now <= s.pendings[e.id].expiresAt
    && VpnApprove in e.caller.permissions && e.caller.userId != s.pendings[e.id].requester
    && e.confirm == ActionDigest(CreateVpn, s.pendings[e.id].arguments, s.pendings[e.id].requester)
  }

  predicate StillPermitted(s: Db, e: Event)
    requires e.Approve? && e.id in s.pendings
  {
    HeldPermission(s.users, s.pendings[e.id].requester, VpnCreate)
  }

  function Answer(s: Db, e: Event): OutcomeStatus
    requires e.Approve? && (e.id in s.pendings ==> IsVpnArgs(s.pendings[e.id].arguments))
  {
    StatusOf(Judge(s, e.caller, e.id, e.confirm, e.found))
  }

  /** One row has been written for the request, about its action. */
  predicate WritesRow(s: Db, t: Db, e: Event, decision: Decision, reason: Reason)
    requires e.Approve?
  {
    && t.writes != [] && t.writes[..|t.writes| - 1] == s.writes && t.writes[|t.writes| - 1].1 == s.now
    && var row := t.writes[|t.writes| - 1].0;
      && row.requestId == e.requestId && row.actor == e.caller.userId && row.role == e.caller.role
      && row.event == Approval && row.decision == decision && row.reason == Some(reason) && row.actionId == Some(e.id)
      && row.tool == (if e.id in s.pendings then Some(CreateVpn) else None)
      && (decision != Ran ==> row.arguments == Null && row.result == Null)
      && row.actionHash == (if ShowsHash(reason) && e.id in s.pendings then Some(s.pendings[e.id].hash) else None)
  }

  /** The reasons logged with the stored hash. */
  predicate ShowsHash(reason: Reason) {
    reason.ApproverLacks? || reason.SamePerson? || reason.RequesterLostIt? || reason.HandlerSaid? || reason.ApprovedFor?
  }

  /** Nothing but the log and this action differs. */
  predicate OnlySettles(s: Db, t: Db, id: ActionId, status: Status) {
    && id in s.pendings
    && t == s.(pendings := s.pendings[id := s.pendings[id].(status := status, decidedAt := Some(s.now))], writes := t.writes)
  }

  /** Why a request that does not confirm its action is denied. */
  function DenialReason(s: Db, e: Event): Reason
    requires e.Approve?
  {
    if e.id !in s.pendings then NoSuchPendingAction
    else
      var p := s.pendings[e.id];
      if p.status != Waiting then AlreadySettled(p.status)
      else if p.expiresAt < s.now then PastItsExpiry
      else if VpnApprove !in e.caller.permissions then ApproverLacks(Some(VpnApprove))
      else if e.caller.userId == p.requester then SamePerson
      else ConfirmationMismatch
  }

  /** A request that does not confirm its action is denied; it changes nothing but the log, except
      that an action out of time expires. */
  lemma UnconfirmedIsDenied(s: Db, e: Event)
    requires Stored(s) && e.Approve? && !Confirms(s, e)
    ensures var t := Next(s, e);
      && Answer(s, e) == Denied
      && (if DenialReason(s, e) == PastItsExpiry then OnlySettles(s, t, e.id, Expired) else t == s.(writes := t.writes))
  {
  }

  lemma UndecidableSaysWhy(s: Db, e: Event)
    requires Stored(s) && e.Approve?
    requires e.id !in s.pendings || s.pendings[e.id].status != Waiting || s.pendings[e.id].expiresAt < s.now
    ensures WritesRow(s, Next(s, e), e, Deny, DenialReason(s, e))
  {
  }

  lemma UnfitApproverSaysWhy(s: Db, e: Event)
    requires Stored(s) && e.Approve?
    requires e.id in s.pendings && s.pendings[e.id].status == Waiting && s.pendings[e.id].expiresAt >= s.now
    requires !Confirms(s, e)
    ensures WritesRow(s, Next(s, e), e, Deny, DenialReason(s, e))
  {
  }

  /** The row of such a request names the first reason there is. */
  lemma DenialSaysWhy(s: Db, e: Event)
    requires Stored(s) && e.Approve? && !Confirms(s, e)
    ensures WritesRow(s, Next(s, e), e, Deny, DenialReason(s, e))
  {
    if e.id in s.pendings && s.pendings[e.id].status == Waiting && s.pendings[e.id].expiresAt >= s.now {
      UnfitApproverSaysWhy(s, e);
    } else {
      UndecidableSaysWhy(s, e);
    }
  }

  lemma LostPermissionIsJudged(s: Db, e: Event)
    requires Stored(s) && e.Approve? && Confirms(s, e) && !StillPermitted(s, e)
    ensures Judge(s, e.caller, e.id, e.confirm, e.found) == RequesterLostPermission
  {
  }

  /** A confirmed action whose requester is no longer permitted is rejected. */
  lemma UnpermittedIsRejected(s: Db, e: Event)
    requires Stored(s) && e.Approve? && Confirms(s, e) && !StillPermitted(s, e)
    ensures var t := Next(s, e);
      Answer(s, e) == Denied && OnlySettles(s, t, e.id, Rejected) && WritesRow(s, t, e, Deny, RequesterLostIt)
  {
    LostPermissionIsJudged(s, e);
  }

  lemma HandlerDecides(s: Db, e: Event)
    requires Stored(s) && e.Approve? && Confirms(s, e) && StillPermitted(s, e)
    ensures Judge(s, e.caller, e.id, e.confirm, e.found) ==
      match Resolve(s.users, s.pendings[e.id].arguments, e.found)
      case Missing(why) => HandlerFailed(why)
      case Employee(employee) => Runs(employee)
  {
  }

  lemma FailureSettles(s: Db, e: Event, why: Complaint)
    requires Stored(s) && e.Approve? && e.id in s.pendings
    requires Judge(s, e.caller, e.id, e.confirm, e.found) == HandlerFailed(why)
    ensures var t := Next(s, e);
      Answer(s, e) == Errored && OnlySettles(s, t, e.id, Failed) && WritesRow(s, t, e, Error, HandlerSaid(why))
  {
  }

  /** A confirmed and permitted action fails exactly if its arguments name no employee, or more
      than one: then there is no profile. */
  lemma UnnamedFails(s: Db, e: Event)
    requires Stored(s) && e.Approve? && Confirms(s, e) && StillPermitted(s, e)
    requires forall employee :: !Names(s.users, s.pendings[e.id].arguments.subject, e.found, employee)
    ensures var t := Next(s, e);
      && Answer(s, e) == Errored && OnlySettles(s, t, e.id, Failed)
      && exists why :: IsComplaint(s.pendings[e.id].arguments.subject, e.found, why) && WritesRow(s, t, e, Error, HandlerSaid(why))
  {
    var r := Resolve(s.users, s.pendings[e.id].arguments, e.found);
    if r.Employee? {
      ResolveNames(s.users, s.pendings[e.id].arguments, e.found, r.id);
    } else {
      HandlerDecides(s, e);
      FailureSettles(s, e, r.reason);
      assert IsComplaint(s.pendings[e.id].arguments.subject, e.found, r.reason);
    }
  }

  /** The action has been executed for the employee: one new profile, the closed action, and a row
      that says so. */
  predicate ExecutesFor(s: Db, t: Db, e: Event, employee: UserId)
    requires e.Approve? && e.id in s.pendings && IsVpnArgs(s.pendings[e.id].arguments)
  {
    var p, n, days := s.pendings[e.id], s.nextProfile, s.pendings[e.id].arguments.days;
    var until := s.now + days * 24 * 60 * 60;
    && t == s.(
      pendings := s.pendings[e.id := p.(
        status := Executed, approver := Some(e.caller.userId), profile := Some(n), decidedAt := Some(s.now),
        executedAt := Some(s.now))],
      profiles := s.profiles[n := Profile(employee, days, p.requester, e.caller.userId, e.id, until)],
      nextProfile := n + 1, writes := t.writes)
    && WritesRow(s, t, e, Ran, ApprovedFor(e.caller.userId, p.requester))
    && var row := t.writes[|t.writes| - 1].0;
      && row.arguments == AsJson(p.arguments)
      && row.result == Obj(map["profile_id" := Num(n), "employee_id" := Str(employee), "expires_at" := Num(until)])
  }

  lemma RunEnacts(s: Db, e: Event, employee: UserId)
    requires Stored(s) && e.Approve? && e.id in s.pendings
    requires Judge(s, e.caller, e.id, e.confirm, e.found) == Runs(employee)
    ensures Answer(s, e) == Ok
    ensures Next(s, e) == Logged(
      Enacted(s, e.caller, e.id, employee),
      ExecutionEntry(e.caller, e.requestId, s.pendings[e.id], e.id, s.nextProfile, employee, s.now))
  {
  }

  lemma EnactedExecutes(s: Db, t: Db, e: Event, employee: UserId)
    requires Stored(s) && e.Approve? && e.id in s.pendings
    requires t == Logged(
      Enacted(s, e.caller, e.id, employee),
      ExecutionEntry(e.caller, e.requestId, s.pendings[e.id], e.id, s.nextProfile, employee, s.now))
    ensures ExecutesFor(s, t, e, employee)
  {
  }

  /** A confirmed and permitted action whose arguments name an employee is executed for that one. */
  lemma NamedIsExecuted(s: Db, e: Event, employee: UserId)
    requires Stored(s) && e.Approve? && Confirms(s, e) && StillPermitted(s, e)
    requires Names(s.users, s.pendings[e.id].arguments.subject, e.found, employee)
    ensures Answer(s, e) == Ok && ExecutesFor(s, Next(s, e), e, employee)
  {
    ResolveNames(s.users, s.pendings[e.id].arguments, e.found, employee);
    HandlerDecides(s, e);
    RunEnacts(s, e, employee);
    EnactedExecutes(s, Next(s, e), e, employee);
  }

  // ------------------------------------------------------------------ rejections

  /** A waiting action is rejected by a holder of the approve permission or its requester, with one
      row; any other rejection changes nothing. */
  lemma RejectDecides(s: Db, e: Event)
    requires Stored(s) && e.Reject?
    ensures var t := Next(s, e);
      if e.id in s.pendings && s.pendings[e.id].status == Waiting
         && (VpnApprove in e.caller.permissions || e.caller.userId == s.pendings[e.id].requester) then
        var p := s.pendings[e.id];
        t == s.(
          pendings := s.pendings[e.id := p.(status := Rejected, approver := Some(e.caller.userId), decidedAt := Some(s.now))],
          writes := s.writes + [(Entry(
            e.requestId, e.caller.userId, e.caller.role, Approval, Deny, Some(CreateVpn), Null, Some(RejectedBecause(e.note)),
            Null, Some(e.id), Some(p.hash)), s.now)])
      else t == s
  {
  }

  // ------------------------------------------------------------------ tool calls

  /** The permission that a call of a tool takes. */
  function Needs(tool: ToolName): Option<Permission> {
    match tool
    case ServerStatus => Some(ServerRead)
    case CreateTicket => Some(TicketCreate)
    case GetTicket => Some(TicketCreate)
    case CreateVpn => Some(VpnCreate)
    case _ => None
  }

  /** The tool exists, the arguments fit it, and the caller may call it. */
  predicate MayCall(e: Event)
    requires e.Call?
  {
    && !e.tool.UnknownTool? && e.checked.Valid?
    && (Needs(e.tool).Some? ==> Needs(e.tool).value in e.caller.permissions)
  }

  function CallStatus(s: Db, e: Event): Option<OutcomeStatus>
    requires e.Call?
  {
    StatusOfCall(JudgeCall(s.now, e.caller, e.tool, e.raw, e.checked, e.reply, e.newId, e.requestId))
  }

  /** One row has been written for the call. */
  predicate WritesCall(s: Db, t: Db, e: Event, decision: Decision, arguments: Json, reason: Option<Reason>, result: Json,
                       id: Option<ActionId>, hash: Option<Digest>)
    requires e.Call?
  {
    t.writes == s.writes + [(Entry(
      e.requestId, e.caller.userId, e.caller.role, ToolCall, decision, Some(e.tool), arguments, reason, result, id, hash), s.now)]
  }

  /** A call that may not be made leaves a denial and nothing else. */
  lemma UncallableIsDenied(s: Db, e: Event)
    requires e.Call? && !MayCall(e)
    ensures var t := Next(s, e);
      && t == s.(writes := t.writes)
      && (if e.tool.UnknownTool? then
            CallStatus(s, e) == Some(Denied) && WritesCall(s, t, e, Deny, Null, Some(NotAnAvailableTool), Null, None, None)
          else if e.checked.Invalid? then
            CallStatus(s, e) == Some(Errored)
            && WritesCall(s, t, e, Deny, e.raw, Some(InvalidArguments(e.checked.reason)), Null, None, None)
          else
            CallStatus(s, e) == Some(Denied)
            && WritesCall(s, t, e, Deny, AsJson(e.checked.arguments), Some(Requires(Needs(e.tool).value)), Null, None, None))
  {
  }

  /** A call of the VPN tool that may be made only proposes: a waiting action for a day, pinned by
      its hash, that a holder of the approve permission must confirm. */
  lemma VpnCallProposes(s: Db, e: Event)
    requires e.Call? && MayCall(e) && e.tool.CreateVpn?
    ensures var t, arguments := Next(s, e), e.checked.arguments;
      var hash := ActionDigest(CreateVpn, arguments, e.caller.userId);
      && CallStatus(s, e) == Some(Proposed)
      && t == s.(
           pendings := s.pendings[e.newId := Pending(
             e.caller.userId, CreateVpn, arguments, hash, Some(VpnApprove), s.now + 24 * 60 * 60, Waiting, None, None, None, None)],
           writes := t.writes)
      && WritesCall(s, t, e, Await, AsJson(arguments), Some(AwaitingApprovalBy(Some(VpnApprove))), Null, Some(e.newId), Some(hash))
  {
  }

  /** Any other call that may be made does what its handler says, or nothing at all if it crashes. */
  lemma OtherCallsRun(s: Db, e: Event)
    requires e.Call? && MayCall(e) && !e.tool.CreateVpn?
    ensures var t, json := Next(s, e), AsJson(e.checked.arguments);
      && t == s.(writes := t.writes)
      && match e.reply
         case Done(result) => CallStatus(s, e) == Some(Ok) && WritesCall(s, t, e, Ran, json, None, result, None, None)
         case Refused(why) =>
           CallStatus(s, e) == Some(Denied) && WritesCall(s, t, e, Deny, json, Some(HandlerSaid(why)), Null, None, None)
         case Broke(why) =>
           CallStatus(s, e) == Some(Errored) && WritesCall(s, t, e, Error, json, Some(HandlerSaid(why)), Null, None, None)
         case Crashed => CallStatus(s, e) == None && t == s
  {
  }

  /** VPN access can be requested for 1 to 30 days, by id or by name. */
  lemma RequestsAreBounded(s: Db, e: Event)
    requires e.Call? && e.tool.CreateVpn? && e.checked.Valid? && e.newId !in s.pendings
    ensures Enabled(s, e) <==> e.checked.arguments.VpnArguments? && 1 <= e.checked.arguments.days <= 30
  {
  }

  /** What the log shows of VPN arguments determines them. */
  lemma ShownArgumentsTell(a: Arguments, b: Arguments)
    requires a.VpnArguments? && b.VpnArguments? && AsJson(a) == AsJson(b)
    ensures a == b
  {
    var x, y := AsJson(a).fields, AsJson(b).fields;
    assert x["employee_id"] == y["employee_id"] && x["employee_name"] == y["employee_name"];
    assert x["duration_days"] == y["duration_days"];
  }

  // ------------------------------------------------------------------ over whole runs

  /** The step that wrote row k. */
  lemma {:induction false} WrittenAt(states: seq<Db>, events: seq<Event>, i: nat, k: nat) returns (j: nat)
    requires IsRun(states, events) && i < |states| && k < |states[i].writes|
    ensures j < i && |states[j].writes| == k && |states[j + 1].writes| == k + 1
    ensures states[j + 1].writes[k] == states[i].writes[k]
  {
    RunStepWrites(states, events, i - 1);
    if k < |states[i - 1].writes| {
      j := WrittenAt(states, events, i - 1, k);
    } else {
      j := i - 1;
    }
  }

  lemma RunStepWrites(states: seq<Db>, events: seq<Event>, i: nat)
    requires IsRun(states, events) && i < |events|
    ensures |states[i].writes| <= |states[i + 1].writes| <= |states[i].writes| + 1
    ensures states[i].writes == states[i + 1].writes[..|states[i].writes|]
  {
    InvHolds(states, events, i);
    StepShape(states[i], events[i]);
  }

  /** Every tool call in the log that ran was of a known tool, not the VPN one, with arguments that
      fit, by a caller who held the tool's permission when authenticated. */
  lemma RanCallsWerePermitted(states: seq<Db>, events: seq<Event>, i: nat, k: nat) returns (j: nat)
    requires IsRun(states, events) && i < |states| && k < |states[i].writes|
    requires states[i].writes[k].0.event == ToolCall && states[i].writes[k].0.decision == Ran
    ensures j < i && events[j].Call? && MayCall(events[j]) && !events[j].tool.CreateVpn? && events[j].reply.Done?
    ensures Authenticated(states, j, events[j].caller)
    ensures var row := states[i].writes[k].0; row.actor == events[j].caller.userId && row.tool == Some(events[j].tool)
  {
    j := WrittenAt(states, events, i, k);
    InvHolds(states, events, j);
    OnlyCallsWriteCalls(states[j], events[j]);
    if MayCall(events[j]) {
      if events[j].tool.CreateVpn? {
        VpnCallProposes(states[j], events[j]);
      } else {
        OtherCallsRun(states[j], events[j]);
      }
    } else {
      UncallableIsDenied(states[j], events[j]);
    }
  }

  /** A row about a tool call comes from a tool call. */
  lemma OnlyCallsWriteCalls(s: Db, e: Event)
    requires Stored(s) && Enabled(s, e)
    ensures var t := Next(s, e); |t.writes| > |s.writes| && t.writes[|s.writes|].0.event == ToolCall ==> e.Call?
  {
    StepShape(s, e);
    if e.Approve? {
      ApproveEntry(s, e.caller, e.id, e.requestId, Judge(s, e.caller, e.id, e.confirm, e.found));
    }
  }

  // ------------------------------------------------------------------ profiles

  lemma ProfilesStay(states: seq<Db>, events: seq<Event>, i: nat, n: nat)
    requires IsRun(states, events) && i < |events| && n in states[i].profiles
    ensures n in states[i + 1].profiles && states[i + 1].profiles[n] == states[i].profiles[n]
  {
    InvHolds(states, events, i);
    StepShape(states[i], events[i]);
    ProfileStays(states[i], states[i + 1], ChangeOf(states[i], events[i]), n);
  }

  /** The step that made a profile. */
  lemma {:induction false} MadeAt(states: seq<Db>, events: seq<Event>, i: nat, n: nat) returns (j: nat)
    requires IsRun(states, events) && i < |states| && n in states[i].profiles
    ensures j < i && n !in states[j].profiles && n in states[j + 1].profiles
    ensures states[j + 1].profiles[n] == states[i].profiles[n]
  {
    if n in states[i - 1].profiles {
      j := MadeAt(states, events, i - 1, n);
      ProfilesStay(states, events, i - 1, n);
    } else {
      j := i - 1;
    }
  }

  /** Only an approval that confirms a permitted action with a named employee makes a profile. */
  lemma OnlyExecutionMakesProfiles(s: Db, e: Event, n: nat) returns (employee: UserId)
    requires Inv(s) && Enabled(s, e) && n !in s.profiles && n in Next(s, e).profiles
    ensures e.Approve? && Confirms(s, e) && StillPermitted(s, e) && n == s.nextProfile
    ensures Names(s.users, s.pendings[e.id].arguments.subject, e.found, employee)
    ensures ExecutesFor(s, Next(s, e), e, employee)
  {
    StepShape(s, e);
    employee := ChangeOf(s, e).employee;
    ExecutionConfirms(s, e);
    ResolveNames(s.users, s.pendings[e.id].arguments, e.found, employee);
    NamedIsExecuted(s, e, employee);
  }

  lemma ExecutionConfirms(s: Db, e: Event)
    requires Inv(s) && Enabled(s, e) && ChangeOf(s, e).Execution?
    ensures e.Approve? && Confirms(s, e) && StillPermitted(s, e)
    ensures Resolve(s.users, s.pendings[e.id].arguments, e.found) == Employee(ChangeOf(s, e).employee)
  {
  }

  /** In every run each profile was made by one approval, which confirmed its action, for the
      employee that the action's stored arguments name, until so many days after. */
  lemma ProfilesNameTheirEmployee(states: seq<Db>, events: seq<Event>, i: nat, n: nat) returns (j: nat)
    requires IsRun(states, events) && i < |states| && n in states[i].profiles
    ensures j < i && events[j].Approve? && Confirms(states[j], events[j]) && StillPermitted(states[j], events[j])
    ensures var profile := states[i].profiles[n];
      && profile.actionId == events[j].id && profile.actionId in states[i].pendings
      && states[i].pendings[profile.actionId].arguments.VpnArguments?
      && Names(states[j].users, states[i].pendings[profile.actionId].arguments.subject, events[j].found, profile.employee)
      && profile.days == states[i].pendings[profile.actionId].arguments.days && 1 <= profile.days <= 30
      && profile.expiresAt == states[j].now + states[i].pendings[profile.actionId].arguments.days * 24 * 60 * 60
  {
    j := MadeAt(states, events, i, n);
    InvHolds(states, events, j);
    var employee := OnlyExecutionMakesProfiles(states[j], events[j], n);
    DecisionsAreFinal(states, events, j, i);
    assert ApprovalRuns.SameContent(states[j].pendings[events[j].id], states[i].pendings[events[j].id]);
  }
}
