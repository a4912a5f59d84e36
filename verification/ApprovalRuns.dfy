/**
  Safety of the approval protocol over whole runs: any interleaving of tool calls, approvals,
  rejections, permission changes and clock ticks.
 */
module ApprovalRuns {
  import opened Common
  import opened Audit
  import opened Approvals

  datatype Event =
    | Call(caller: Principal, tool: ToolName, raw: Json, checked: Checked, reply: Reply, newId: ActionId, requestId: string)
    | Approve(caller: Principal, id: ActionId, confirm: Digest, found: seq<UserId>, requestId: string)
    | Reject(caller: Principal, id: ActionId, note: Option<string>, requestId: string)
    | SetUser(userId: UserId, user: User)
    | Tick(seconds: nat)

  /** What the environment guarantees of an event: ids are new, and a schema check of the VPN
      tool only passes arguments the schema allows. */
  predicate Enabled(s: Db, e: Event) {
    match e
    case Call(_, tool, _, checked, _, newId, _) =>
      newId !in s.pendings && (tool.CreateVpn? && checked.Valid? ==> IsVpnArgs(checked.arguments))
    case _ => true
  }

  function Next(s: Db, e: Event): Db
  {
    match e
    case Call(p, tool, raw, checked, reply, newId, requestId) =>
      AfterCall(s, newId, JudgeCall(s.now, p, tool, raw, checked, reply, newId, requestId))
    case Approve(p, id, confirm, found, requestId) =>
      // stored arguments that no longer fit the schema would abort the transaction
      if id in s.pendings ==> IsVpnArgs(s.pendings[id].arguments) then AfterApprove(s, p, id, confirm, found, requestId) else s
    case Reject(p, id, note, requestId) => AfterReject(s, p, id, note, requestId)
    case SetUser(userId, user) => s.(users := s.users[userId := user])
    case Tick(seconds) => s.(now := s.now + seconds)
  }

  predicate Initial(s: Db) {
    s.pendings == map[] && s.profiles == map[] && s.writes == []
  }

  // ------------------------------------------------------------------ invariant

  /** A stored action is one the schema allowed, pinned by the hash of its own content. */
  predicate WellFormed(p: Pending) {
    && p.tool.CreateVpn? && IsVpnArgs(p.arguments)
    && p.hash == ActionDigest(p.tool, p.arguments, p.requester)
    && p.approvePermission == Some(VpnApprove)
    && (p.status == Executed <==> p.profile.Some?)
    && (p.status == Executed <==> p.executedAt.Some?)
  }

  /** The executed action and its profile name each other and agree. */
  predicate Matched(s: Db, id: ActionId, n: nat) {
    && id in s.pendings && n in s.profiles
    && s.pendings[id].status == Executed
    && s.pendings[id].profile == Some(n)
    && s.profiles[n].actionId == id
    && s.pendings[id].approver == Some(s.profiles[n].approvedBy)
    && s.profiles[n].requestedBy == s.pendings[id].requester
    && s.profiles[n].approvedBy != s.profiles[n].requestedBy
    && IsVpnArgs(s.pendings[id].arguments) && s.profiles[n].days == Days(s.pendings[id])
    && s.pendings[id].executedAt.Some?
    && s.pendings[id].executedAt.value <= s.pendings[id].expiresAt
  }

  ghost predicate Stored(s: Db) {
    forall id :: id in s.pendings ==> WellFormed(s.pendings[id])
  }

  ghost predicate Inv(s: Db) {
    && Stored(s)
    && (forall id :: id in s.pendings && s.pendings[id].status == Executed ==>
          Matched(s, id, s.pendings[id].profile.value))
    && (forall n :: n in s.profiles ==> n < s.nextProfile && Matched(s, s.profiles[n].actionId, n))
    && RowsMatch(s)
  }

  predicate IsExecutedRow(e: Entry, id: ActionId) {
    e.event == Approval && e.decision == Ran && e.actionId == Some(id)
  }

  /** How many audit entries say that action `id` was executed on approval. */
  function ExecutedRows(writes: seq<(Entry, int)>, id: ActionId): nat {
    if writes == [] then 0
    else ExecutedRows(writes[..|writes| - 1], id) + if IsExecutedRow(writes[|writes| - 1].0, id) then 1 else 0
  }

  /** The audit rows of executions match the executed actions, one each. */
  ghost predicate RowsMatch(s: Db) {
    forall id :: ExecutedRows(s.writes, id) == if id in s.pendings && s.pendings[id].status == Executed then 1 else 0
  }

  lemma OneMoreRow(w: seq<(Entry, int)>, e: Entry, at: int)
    ensures forall id :: ExecutedRows(w + [(e, at)], id) == ExecutedRows(w, id) + if IsExecutedRow(e, id) then 1 else 0
  {
    var longer := w + [(e, at)];
    assert longer[..|longer| - 1] == w;
  }

  // ------------------------------------------------------------------ the shape of one step

  /** The four things a step can do to the stored actions. */
  datatype Change =
    | Nothing
    | Proposal(id: ActionId, pending: Pending)
    | Settling(id: ActionId, pending: Pending)
    | Execution(id: ActionId, approver: UserId, employee: UserId)

  ghost predicate Changes(s: Db, t: Db, c: Change) {
    match c
    case Nothing => t.pendings == s.pendings && t.profiles == s.profiles && t.nextProfile == s.nextProfile
    case Proposal(id, p) =>
      && id !in s.pendings && WellFormed(p) && p.status == Waiting
      && t.pendings == s.pendings[id := p] && t.profiles == s.profiles && t.nextProfile == s.nextProfile
    case Settling(id, p) =>
      && id in s.pendings && s.pendings[id].status == Waiting && p.status in {Rejected, Expired, Failed}
      && p == s.pendings[id].(status := p.status, approver := p.approver, decidedAt := p.decidedAt)
      && t.pendings == s.pendings[id := p] && t.profiles == s.profiles && t.nextProfile == s.nextProfile
    case Execution(id, approver, employee) =>
      && id in s.pendings && s.pendings[id].status == Waiting && IsVpnArgs(s.pendings[id].arguments)
      && approver != s.pendings[id].requester && s.now <= s.pendings[id].expiresAt
      && t.pendings == s.pendings[id := Closed(s.pendings[id], approver, s.nextProfile, s.now)]
      && t.profiles == s.profiles[s.nextProfile :=
           Profile(employee, Days(s.pendings[id]), s.pendings[id].requester, approver, id, s.now + Days(s.pendings[id]) * DAY)]
      && t.nextProfile == s.nextProfile + 1
  }

  ghost function ChangeOf(s: Db, e: Event): Change
    requires Stored(s)
  {
    match e
    case Call(p, tool, raw, checked, reply, newId, requestId) =>
      var r := JudgeCall(s.now, p, tool, raw, checked, reply, newId, requestId);
      if r.CallResult? && r.proposal.Some? then Proposal(newId, r.proposal.value) else Nothing
    case Approve(p, id, confirm, found, _) =>
      ChangeOfVerdict(s, p, id, Judge(s, p, id, confirm, found))
    case Reject(p, id, _, _) =>
      if MayReject(s, p, id) then
        Settling(id, s.pendings[id].(status := Rejected, approver := Some(p.userId), decidedAt := Some(s.now)))
      else Nothing
    case _ => Nothing
  }

  /** The call gets as far as running a handler, and the handler crashes. */
  predicate Crashes(e: Event) {
    && e.Call? && e.reply.Crashed?
    && Tool(e.tool).Some? && e.checked.Valid? && !Tool(e.tool).value.sensitive
    && Authorized(e.caller.permissions, Tool(e.tool).value)
  }

  /** How many audit rows a step appends. */
  ghost function RowsAdded(s: Db, e: Event): nat {
    match e
    case Call(_, _, _, _, _, _, _) => if Crashes(e) then 0 else 1
    case Approve(_, _, _, _, _) => 1
    case Reject(p, id, _, _) => if MayReject(s, p, id) then 1 else 0
    case _ => 0
  }

  ghost predicate Shape(s: Db, t: Db, c: Change, rows: nat) {
    && Changes(s, t, c)
    && |t.writes| == |s.writes| + rows && s.writes == t.writes[..|s.writes|]
    && (rows == 0 ==> !c.Execution?)
    && (rows == 1 ==> forall id :: IsExecutedRow(t.writes[|s.writes|].0, id) <==> (c.Execution? && c.id == id))
  }

  lemma ApproveEntry(s: Db, approver: Principal, id: ActionId, requestId: string, v: Verdict)
    requires !v.NoSuchAction? ==> id in s.pendings && IsVpnArgs(s.pendings[id].arguments)
    ensures var e := VerdictEntry(s, approver, id, requestId, v);
      e.event == Approval && e.actionId == Some(id) && (e.decision == Ran <==> v.Runs?)
  {
  }

  ghost function ChangeOfVerdict(s: Db, approver: Principal, id: ActionId, v: Verdict): Change
    requires !v.NoSuchAction? ==> id in s.pendings
  {
    match v
    case TooLate => Settling(id, s.pendings[id].(status := Expired, decidedAt := Some(s.now)))
    case RequesterLostPermission => Settling(id, s.pendings[id].(status := Rejected, decidedAt := Some(s.now)))
    case HandlerFailed(_) => Settling(id, s.pendings[id].(status := Failed, decidedAt := Some(s.now)))
    case Runs(employee) => Execution(id, approver.userId, employee)
    case _ => Nothing
  }

  lemma ApproveChange(s: Db, approver: Principal, id: ActionId, confirm: Digest, found: seq<UserId>)
    requires id in s.pendings ==> IsVpnArgs(s.pendings[id].arguments)
    ensures var v := Judge(s, approver, id, confirm, found);
      Changes(s, Enact(s, approver, id, v), ChangeOfVerdict(s, approver, id, v))
  {
  }

  lemma ApproveShape(s: Db, e: Event)
    requires Stored(s) && e.Approve?
    ensures Shape(s, Next(s, e), ChangeOf(s, e), 1)
  {
    var v := Judge(s, e.caller, e.id, e.confirm, e.found);
    ApproveEntry(s, e.caller, e.id, e.requestId, v);
    ApproveChange(s, e.caller, e.id, e.confirm, e.found);
    assert Next(s, e).writes == s.writes + [(VerdictEntry(s, e.caller, e.id, e.requestId, v), s.now)];
  }

  /** Every step makes its change and appends its audit rows; the row says "executed on
      approval" exactly when the step executes that action. */
  lemma StepShape(s: Db, e: Event)
    requires Stored(s) && Enabled(s, e)
    ensures Shape(s, Next(s, e), ChangeOf(s, e), RowsAdded(s, e))
  {
    if e.Approve? {
      ApproveShape(s, e);
    }
  }

  // ------------------------------------------------------------------ the invariant is kept

  lemma ChangeKeepsActions(s: Db, t: Db, c: Change)
    requires Inv(s) && Changes(s, t, c)
    ensures Stored(t)
    ensures forall id :: id in t.pendings && t.pendings[id].status == Executed ==>
      Matched(t, id, t.pendings[id].profile.value)
  {
  }

  lemma ChangeKeepsProfiles(s: Db, t: Db, c: Change)
    requires Inv(s) && Changes(s, t, c)
    ensures forall n :: n in t.profiles ==> n < t.nextProfile && Matched(t, t.profiles[n].actionId, n)
  {
    forall n | n in t.profiles ensures n < t.nextProfile && Matched(t, t.profiles[n].actionId, n) {
      if n in s.profiles {
        ProfileStays(s, t, c, n);
      }
    }
  }

  lemma ProfileStays(s: Db, t: Db, c: Change, n: nat)
    requires Inv(s) && Changes(s, t, c) && n in s.profiles
    ensures n in t.profiles && n < t.nextProfile && t.profiles[n] == s.profiles[n]
    ensures Matched(t, t.profiles[n].actionId, n)
  {
    assert Matched(s, s.profiles[n].actionId, n);
  }

  lemma ShapeKeepsRows(s: Db, t: Db, c: Change, rows: nat)
    requires RowsMatch(s) && Shape(s, t, c, rows) && rows <= 1
    ensures RowsMatch(t)
  {
    if rows == 1 {
      var (entry, at) := t.writes[|s.writes|];
      assert t.writes == s.writes + [(entry, at)];
      OneMoreRow(s.writes, entry, at);
    } else {
      assert t.writes == s.writes;
    }
  }

  lemma NextKeepsInv(s: Db, e: Event)
    requires Inv(s) && Enabled(s, e)
    ensures Inv(Next(s, e))
  {
    StepShape(s, e);
    ShapeKeepsInv(s, Next(s, e), ChangeOf(s, e), RowsAdded(s, e));
  }

  lemma ShapeKeepsInv(s: Db, t: Db, c: Change, rows: nat)
    requires Inv(s) && Shape(s, t, c, rows) && rows <= 1
    ensures Inv(t)
  {
    ChangeKeepsActions(s, t, c);
    ChangeKeepsProfiles(s, t, c);
    ShapeKeepsRows(s, t, c, rows);
  }

  // ------------------------------------------------------------------ runs

  /** The principal was loaded from the users table at or before step i. */
  ghost predicate Authenticated(states: seq<Db>, i: nat, p: Principal)
    requires i < |states|
  {
    exists k :: 0 <= k <= i && PrincipalOf(states[k].users, p.userId) == Some(p)
  }

  /** `states[i + 1]` is what the database holds after `events[i]`.  A caller is whoever the
      users table said when the request was authenticated, which may be some steps ago. */
  ghost predicate IsRun(states: seq<Db>, events: seq<Event>) {
    && |states| == |events| + 1
    && Initial(states[0])
    && (forall i :: 0 <= i < |events| ==> Enabled(states[i], events[i]) && states[i + 1] == Next(states[i], events[i]))
    && (forall i :: 0 <= i < |events| && (events[i].Call? || events[i].Approve? || events[i].Reject?) ==>
          Authenticated(states, i, events[i].caller))
  }

  lemma {:induction false} InvHolds(states: seq<Db>, events: seq<Event>, i: nat)
    requires IsRun(states, events) && i < |states|
    ensures Inv(states[i])
  {
    if i > 0 {
      InvHolds(states, events, i - 1);
      NextKeepsInv(states[i - 1], events[i - 1]);
    }
  }

  /** At every commit, executed actions and VPN profiles correspond one to one, and agree on
      requester, approver and duration; approver and requester differ and the execution came
      no later than the expiry. */
  lemma ProfilesAreExecutedActions(states: seq<Db>, events: seq<Event>, i: nat)
    requires IsRun(states, events) && i < |states|
    ensures var s := states[i];
      && (forall n :: n in s.profiles ==> Matched(s, s.profiles[n].actionId, n))
      && (forall id :: id in s.pendings && s.pendings[id].status == Executed ==>
            exists n :: n in s.profiles && Matched(s, id, n))
      && (forall m, n :: m in s.profiles && n in s.profiles && s.profiles[m].actionId == s.profiles[n].actionId ==> m == n)
  {
    InvHolds(states, events, i);
    var s := states[i];
    forall id | id in s.pendings && s.pendings[id].status == Executed
      ensures exists n :: n in s.profiles && Matched(s, id, n)
    {
      assert Matched(s, id, s.pendings[id].profile.value);
    }
  }

  /** One audit row per executed action, none for any other. */
  lemma ExecutionsAreAuditedOnce(states: seq<Db>, events: seq<Event>, i: nat, id: ActionId)
    requires IsRun(states, events) && i < |states|
    ensures ExecutedRows(states[i].writes, id) ==
            if id in states[i].pendings && states[i].pendings[id].status == Executed then 1 else 0
  {
    InvHolds(states, events, i);
  }

  /** An approval appends exactly one audit row, a tool call one exactly when no handler crashes,
      a rejection one exactly when it changes the action; nothing already written changes, and
      after a crash nothing has. */
  lemma EveryStepIsAudited(states: seq<Db>, events: seq<Event>, i: nat)
    requires IsRun(states, events) && i < |events|
    ensures var s, t := states[i].writes, states[i + 1].writes;
      && |s| <= |t| && s == t[..|s|]
      && (events[i].Call? ==> |t| == |s| + if Crashes(events[i]) then 0 else 1)
      && (Crashes(events[i]) ==> states[i + 1] == states[i])
      && (events[i].Approve? ==> |t| == |s| + 1)
      && (events[i].Reject? ==> |t| == |s| + if states[i + 1].pendings != states[i].pendings then 1 else 0)
  {
    InvHolds(states, events, i);
    StepShape(states[i], events[i]);
    if events[i].Reject? && MayReject(states[i], events[i].caller, events[i].id) {
      assert states[i + 1].pendings[events[i].id].status == Rejected;
    }
  }

  /** What a later state may differ in about an action stored earlier: nothing once it is
      decided, and never its content, hash, requester or expiry. */
  ghost predicate Evolves(s: Db, t: Db) {
    forall id :: id in s.pendings ==>
      && id in t.pendings
      && (s.pendings[id].status != Waiting ==> t.pendings[id] == s.pendings[id])
      && SameContent(s.pendings[id], t.pendings[id])
  }

  predicate SameContent(p: Pending, q: Pending) {
    && q.tool == p.tool && q.arguments == p.arguments && q.hash == p.hash && q.requester == p.requester
    && q.approvePermission == p.approvePermission && q.expiresAt == p.expiresAt
  }

  lemma RunStepEvolves(states: seq<Db>, events: seq<Event>, i: nat)
    requires IsRun(states, events) && i < |events|
    ensures Evolves(states[i], states[i + 1])
  {
    InvHolds(states, events, i);
    StepShape(states[i], events[i]);
    ChangeEvolves(states[i], states[i + 1], ChangeOf(states[i], events[i]));
  }

  lemma {:induction false} EvolvesThroughout(states: seq<Db>, i: nat, j: nat)
    requires i <= j < |states|
    requires forall k :: i <= k < j ==> Evolves(states[k], states[k + 1])
    ensures Evolves(states[i], states[j])
    decreases j - i
  {
    if i < j {
      EvolvesThroughout(states, i, j - 1);
      assert Evolves(states[j - 1], states[j - 1 + 1]);
      EvolvesTransitive(states[i], states[j - 1], states[j]);
    }
  }

  lemma DecisionsAreFinal(states: seq<Db>, events: seq<Event>, i: nat, j: nat)
    requires IsRun(states, events) && i <= j < |states|
    ensures Evolves(states[i], states[j])
  {
    forall k | i <= k < j ensures Evolves(states[k], states[k + 1]) {
      RunStepEvolves(states, events, k);
    }
    EvolvesThroughout(states, i, j);
  }

  lemma EvolvesTransitive(s: Db, t: Db, u: Db)
    requires Evolves(s, t) && Evolves(t, u)
    ensures Evolves(s, u)
  {
    forall id | id in s.pendings
      ensures id in u.pendings && SameContent(s.pendings[id], u.pendings[id])
      ensures s.pendings[id].status != Waiting ==> u.pendings[id] == s.pendings[id]
    {
      assert id in t.pendings && SameContent(s.pendings[id], t.pendings[id]);
    }
  }

  lemma ChangeEvolves(s: Db, t: Db, c: Change)
    requires Changes(s, t, c)
    ensures Evolves(s, t)
  {
  }

  // ------------------------------------------------------------------ authority

  predicate HeldPermission(users: map<UserId, User>, id: UserId, permission: Permission) {
    id in users && users[id].active && permission in users[id].permissions
  }

  /** Step j executed action `id` with full authority. */
  ghost predicate AuthorisedExecution(states: seq<Db>, events: seq<Event>, j: nat, id: ActionId)
    requires IsRun(states, events) && j < |events|
  {
    var s := states[j];
    && events[j].Approve? && events[j].id == id
    && id in s.pendings && s.pendings[id].status == Waiting
    && states[j + 1].pendings[id].status == Executed
    && states[j + 1].pendings[id].approver == Some(events[j].caller.userId)
    && states[j + 1].pendings[id].executedAt == Some(s.now)
    && events[j].caller.userId != s.pendings[id].requester
    && VpnApprove in events[j].caller.permissions
    && events[j].confirm == ActionDigest(s.pendings[id].tool, s.pendings[id].arguments, s.pendings[id].requester)
    && HeldPermission(s.users, s.pendings[id].requester, VpnCreate)
    && s.now <= s.pendings[id].expiresAt
  }

  /** An approval request executes its action exactly when the action waits, is in time, the
      approver may approve it, is someone else and confirms the stored content, the requester
      is still permitted, and the employee can be found. */
  lemma ExecutesExactlyWhen(s: Db, e: Event)
    requires Stored(s) && e.Approve?
    ensures var t := Next(s, e);
      (e.id in t.pendings && t.pendings[e.id].status == Executed && t.pendings != s.pendings) <==>
      (&& e.id in s.pendings && s.pendings[e.id].status == Waiting
       && s.now <= s.pendings[e.id].expiresAt
       && VpnApprove in e.caller.permissions
       && e.caller.userId != s.pendings[e.id].requester
       && e.confirm == ActionDigest(CreateVpn, s.pendings[e.id].arguments, s.pendings[e.id].requester)
       && HeldPermission(s.users, s.pendings[e.id].requester, VpnCreate)
       && Resolve(s.users, s.pendings[e.id].arguments, e.found).Employee?)
  {
    ApproveShape(s, e);
  }

  lemma ExecutionIsAuthorised(states: seq<Db>, events: seq<Event>, j: nat, id: ActionId)
    requires IsRun(states, events) && j < |events|
    requires id in states[j + 1].pendings && states[j + 1].pendings[id].status == Executed
    requires !(id in states[j].pendings && states[j].pendings[id].status == Executed)
    ensures AuthorisedExecution(states, events, j, id)
  {
    InvHolds(states, events, j);
    StepShape(states[j], events[j]);
  }

  /** An executed action is never changed again. */
  lemma ExecutedStays(states: seq<Db>, events: seq<Event>, i: nat, j: nat, id: ActionId)
    requires IsRun(states, events) && i <= j < |states|
    requires id in states[i].pendings && states[i].pendings[id].status == Executed
    ensures id in states[j].pendings && states[j].pendings[id] == states[i].pendings[id]
  {
    DecisionsAreFinal(states, events, i, j);
  }

  lemma ExecutionDecides(states: seq<Db>, events: seq<Event>, j: nat, id: ActionId)
    requires IsRun(states, events) && j < |events| && AuthorisedExecution(states, events, j, id)
    ensures id in states[j].pendings && states[j].pendings[id].status == Waiting
    ensures id in states[j + 1].pendings && states[j + 1].pendings[id].status == Executed
  {
  }

  lemma ExecutedAtMostOnce(states: seq<Db>, events: seq<Event>, j: nat, k: nat, id: ActionId)
    requires IsRun(states, events) && j < k < |events|
    ensures !(AuthorisedExecution(states, events, j, id) && AuthorisedExecution(states, events, k, id))
  {
    if AuthorisedExecution(states, events, j, id) && AuthorisedExecution(states, events, k, id) {
      ExecutionDecides(states, events, j, id);
      ExecutionDecides(states, events, k, id);
      ExecutedStays(states, events, j + 1, k, id);
      assert false;
    }
  }

  /** The approver of an execution held the approve permission, as an active user, in the
      database state its request was authenticated against. */
  lemma ApproverHeldPermission(states: seq<Db>, events: seq<Event>, j: nat, id: ActionId) returns (k: nat)
    requires IsRun(states, events) && j < |events| && AuthorisedExecution(states, events, j, id)
    ensures k <= j && HeldPermission(states[k].users, events[j].caller.userId, VpnApprove)
  {
    assert Authenticated(states, j, events[j].caller);
    k :| 0 <= k <= j && PrincipalOf(states[k].users, events[j].caller.userId) == Some(events[j].caller);
  }

  predicate HasExecuted(s: Db, id: ActionId) {
    id in s.pendings && s.pendings[id].status == Executed
  }

  lemma {:induction false} FirstExecuted(states: seq<Db>, i: nat, id: ActionId) returns (j: nat)
    requires i < |states| && !HasExecuted(states[0], id) && HasExecuted(states[i], id)
    ensures j < i && HasExecuted(states[j + 1], id) && !HasExecuted(states[j], id)
  {
    if HasExecuted(states[i - 1], id) {
      j := FirstExecuted(states, i - 1, id);
    } else {
      j := i - 1;
    }
  }

  /** The step at which an executed action became so. */
  lemma ExecutionStep(states: seq<Db>, events: seq<Event>, i: nat, id: ActionId) returns (j: nat)
    requires IsRun(states, events) && i < |states|
    requires id in states[i].pendings && states[i].pendings[id].status == Executed
    ensures j < i && id in states[j + 1].pendings && states[j + 1].pendings[id] == states[i].pendings[id]
    ensures !(id in states[j].pendings && states[j].pendings[id].status == Executed)
  {
    j := FirstExecuted(states, i, id);
    ExecutedStays(states, events, j + 1, i, id);
  }

  /** Every executed action was executed by a step of the run, by an approver other
      than the requester, who held the approve permission and confirmed the hash of exactly
      what is stored, in time and while the requester was still active and still permitted. */
  lemma ExecutedActionsWereAuthorised(states: seq<Db>, events: seq<Event>, i: nat, id: ActionId) returns (j: nat)
    requires IsRun(states, events) && i < |states|
    requires id in states[i].pendings && states[i].pendings[id].status == Executed
    ensures j < i && AuthorisedExecution(states, events, j, id)
    ensures states[j + 1].pendings[id] == states[i].pendings[id]
  {
    j := ExecutionStep(states, events, i, id);
    ExecutionIsAuthorised(states, events, j, id);
  }
}
