/**
  A reference for the gateway: one request as the script, the clock and the breakers' histories
  before it determine it.  It keeps no breakers: whether a target is admitted or tried again
  follows from its history and from how many attempts have failed since.
 */
module GatewayReference {
  import opened Common
  import opened Resilience
  import opened Gateway
  import opened GatewayProperties

  /** Something a model's breaker is told. */
  datatype Told = Told(model: ModelId, op: Op)

  /** The course of a request: how it ends, its log, its calls and time, and what breakers are told. */
  datatype Course = Course(opening: Opening, log: seq<Attempt>, calls: nat, now: real, told: seq<Told>)

  function OpsFor(told: seq<Told>, id: ModelId): seq<Op> {
    if told == [] then []
    else
      var last := told[|told| - 1];
      OpsFor(told[..|told| - 1], id) + (if last.model == id then [last.op] else [])
  }

  // ------------------------------------------------------------------ one target

  /** Why a target is not tried: egress is not permitted, its provider is disabled, or its breaker
      has tripped and has not cooled down or has a probe out. */
  function WhySkipped(r: Request, h: seq<Op>, t: Target, now: real): Option<SkipReason> {
    if t.id in r.blocked then Some(EgressNotPermitted)
    else if !t.enabled then Some(ProviderDisabled)
    else if Tripped(r.breakers, h) && (now - LastFailure(h) < r.breakers.cooldown || ProbeOut(r.breakers, h)) then Some(CircuitOpen)
    else None
  }

  /** The breaker at attempt n: half-open for a probe. */
  function BreakerAt(r: Request, h: seq<Op>, n: nat): BreakerState {
    if n == 1 && Tripped(r.breakers, h) then HalfOpen else Closed
  }

  function TimeLimit(r: Request, t: Target, now: real): real {
    if t.timeout <= r.deadline - now then t.timeout else r.deadline - now
  }

  /** How an answered or failed call ends: None for an answer, else its error. */
  function ErrorOf(reply: Reply, limit: real): Option<ErrorKind> {
    if reply.took >= limit then Some(Timeout) else if reply.answer.Fails? then Some(reply.answer.error) else None
  }

  function PowerOfTwo(n: nat): nat {
    if n == 0 then 1 else 2 * PowerOfTwo(n - 1)
  }

  function Least(a: real, b: real): real {
    if b < a then b else a
  }

  /** The wait before a retry: what the provider asks for, or the jitter below the base doubled
      with every attempt; never more than the cap. */
  function Wait(r: Request, n: nat, e: ErrorKind, jitter: real): real
    requires n >= 1
  {
    if e.RateLimited? && e.retryAfter.Some? then Least(e.retryAfter.value, r.backoffCap)
    else Least(jitter, Least(r.backoffCap, PowerOfTwo(n - 1) as real * r.backoffBase))
  }

  /** Another attempt is due: the error may pass, attempts are left, the failures so far do not
      trip the breaker, and there is time. */
  predicate RetryDue(r: Request, h: seq<Op>, t: Target, n: nat, e: ErrorKind, again: real) {
    && (e.Timeout? || e.Unavailable? || e.RateLimited?) && n < t.maxAttempts
    && FailureRun(h) + n < r.breakers.threshold && again < r.deadline
  }

  /** Whether the breaker is told of an error. */
  predicate IsTold(e: ErrorKind) {
    !e.BadRequest? && !e.ModelNotFound? && !e.Unclassified?
  }

  function FailedAttempt(t: Target, n: nat, e: ErrorKind, breaker: BreakerState): Attempt {
    Attempt(t.id, n, if e == Timeout then TimedOut else Failure, Some(e), 0.0, breaker)
  }

  function Before(log: seq<Attempt>, told: seq<Told>, rest: Course): Course {
    rest.(log := log + rest.log, told := told + rest.told)
  }

  // ------------------------------------------------------------------ the request

  /** The course from target k on; n = 0: before its admission, n >= 1: at attempt n. */
  function Reference(
      r: Request, script: Script, history: map<ModelId, seq<Op>>, k: nat, n: nat, calls: nat, now: real): Course
    requires k <= |r.targets| && (n > 0 ==> k < |r.targets| && n <= r.targets[k].maxAttempts)
    requires forall t :: t in r.targets ==> SaneTarget(t)
    decreases |r.targets| - k, if n == 0 then 1 else 0, if n == 0 then 0 else r.targets[k].maxAttempts - n
  {
    if k == |r.targets| then Course(Exhausted, [], calls, now, [])
    else
      var t := r.targets[k];
      var h := OpsOf(history, t.id);
      if n == 0 then
        assert SaneTarget(t);
        var why := WhySkipped(r, h, t, now);
        var asks := if t.id in r.blocked || !t.enabled then [] else [Told(t.id, Asked(now))];
        if why.Some? then
          Before([Attempt(t.id, 0, Skipped(why.value), None, 0.0, Open)], asks, Reference(r, script, history, k + 1, 0, calls, now))
        else Before([], asks, Reference(r, script, history, k, 1, calls, now))
      else if now >= r.deadline then Course(Refused(DeadlineExceeded, k), [], calls, now, [])
      else
        var reply, limit := ReplyTo(script, calls), TimeLimit(r, t, now);
        var e := ErrorOf(reply, limit);
        if e.None? then Course(OpeningBy(r, h, k, n, reply), [], calls + 1, now + reply.took, [])
        else
          var ended := now + Least(reply.took, limit);
          var done := ended + reply.recording;
          var told := if IsTold(e.value) then [Told(t.id, FailedAt(ended))] else [];
          var record := [FailedAttempt(t, n, e.value, BreakerAt(r, h, n))];
          var again := done + Wait(r, n, e.value, reply.jitter);
          if e.value.BadRequest? then Course(Refused(BadRequestCode, k), record, calls + 1, done, told)
          else if RetryDue(r, h, t, n, e.value, again) then
            Before(record, told, Reference(r, script, history, k, n + 1, calls + 1, again))
          else Before(record, told, Reference(r, script, history, k + 1, 0, calls + 1, done))
  }

  /** A call that ends in time and does not fail: it is answered, or ends the request. */
  function OpeningBy(r: Request, h: seq<Op>, k: nat, n: nat, reply: Reply): Opening
    requires !reply.answer.Fails?
  {
    match reply.answer
    case Arrives(usage, stream) => Arrived(k, n, usage, stream, reply.recording, BreakerAt(r, h, n))
    case Leaves => Cut(k, ClientLeft)
    case Crashes => Cut(k, AdapterCrashed)
  }

  // ------------------------------------------------------------------ the walk follows the reference

  predicate IsTimes(product: real, n: nat, base: real) {
    product == n as real * base
  }

  lemma TwiceAsMany(product: real, n: nat, base: real)
    requires IsTimes(product, n, base)
    ensures IsTimes(2.0 * product, 2 * n, base)
  {
    var x := n as real;
    assert (2 * n) as real == 2.0 * x;
    Associates(2.0, x, base);
  }

  lemma Associates(a: real, b: real, c: real)
    ensures a * b * c == a * (b * c)
  {
  }

  lemma {:induction false} DoubledIsPower(base: real, n: nat)
    ensures IsTimes(Doubled(base, n), PowerOfTwo(n), base)
  {
    if n > 0 {
      DoubledIsPower(base, n - 1);
      TwiceAsMany(Doubled(base, n - 1), PowerOfTwo(n - 1), base);
    }
  }

  lemma DelayIsWait(r: Request, n: nat, e: ErrorKind, jitter: real)
    requires n >= 1
    ensures Delay(r, n, e, jitter) == Wait(r, n, e, jitter)
  {
    DoubledIsPower(r.backoffBase, n - 1);
  }

  /** A target as the walk finds it at attempt n, its history before the request being h. */
  ghost predicate AsBefore(r: Request, h: seq<Op>, w: World, id: ModelId, n: nat)
    requires n >= 1
  {
    var ops := OpsOf(w.history, id);
    && FailureRun(ops) == FailureRun(h) + n - 1
    && (n == 1 ==> LastFailure(ops) == LastFailure(h) && (Tripped(r.breakers, h) ==> w.now - LastFailure(h) >= r.breakers.cooldown))
    && (n >= 2 ==> !Tripped(r.breakers, ops))
  }

  lemma AskedKeeps(h: seq<Op>, at: real)
    ensures FailureRun(h + [Asked(at)]) == FailureRun(h) && LastFailure(h + [Asked(at)]) == LastFailure(h)
  {
    assert (h + [Asked(at)])[..|h|] == h;
  }

  lemma FailedAdds(h: seq<Op>, at: real)
    ensures FailureRun(h + [FailedAt(at)]) == FailureRun(h) + 1
  {
    assert (h + [FailedAt(at)])[..|h|] == h;
  }

  lemma SkipIsWhy(r: Request, w: World, t: Target)
    ensures SkipFor(r, w, t) == WhySkipped(r, OpsOf(w.history, t.id), t, w.now)
  {
    AdmissionRule(r.breakers, OpsOf(w.history, t.id), w.now);
  }

  lemma BreakerIsAt(r: Request, h: seq<Op>, w: World, id: ModelId, n: nat)
    requires n >= 1 && AsBefore(r, h, w, id, n)
    ensures StateAt(r.breakers, BreakerOf(r, w, id), w.now) == BreakerAt(r, h, n)
  {
    FieldsFollowHistory(r.breakers, OpsOf(w.history, id));
  }

  lemma AdmittedIsAsBefore(r: Request, w: World, t: Target)
    requires SkipFor(r, w, t).None?
    ensures AsBefore(r, OpsOf(w.history, t.id), AfterAdmission(r, w, t), t.id, 1)
  {
    AskedKeeps(OpsOf(w.history, t.id), w.now);
    AdmissionRule(r.breakers, OpsOf(w.history, t.id), w.now);
  }

  /** What a failed call leaves: when it ended and its record was written, and the retry's time. */
  function EndOf(r: Request, script: Script, t: Target, calls: nat, now: real): real {
    now + Least(ReplyTo(script, calls).took, TimeLimit(r, t, now))
  }

  function DoneBy(r: Request, script: Script, t: Target, calls: nat, now: real): real {
    EndOf(r, script, t, calls, now) + ReplyTo(script, calls).recording
  }

  function AgainAt(r: Request, script: Script, t: Target, n: nat, e: ErrorKind, calls: nat, now: real): real
    requires n >= 1
  {
    DoneBy(r, script, t, calls, now) + Wait(r, n, e, ReplyTo(script, calls).jitter)
  }

  /** The world after a failed call whose breaker was told so, if it was. */
  predicate AfterFailedCall(w: World, after: World, id: ModelId, e: ErrorKind, ended: real) {
    && after.calls == w.calls + 1
    && after.history == if IsTold(e) then w.history[id := OpsOf(w.history, id) + [FailedAt(ended)]] else w.history
  }

  /** The breaker is closed after n failures exactly if they do not trip it. */
  lemma ClosedAfter(r: Request, h: seq<Op>, w: World, after: World, t: Target, n: nat, e: ErrorKind, ended: real)
    requires n >= 1 && AsBefore(r, h, w, t.id, n) && Retryable(e) && AfterFailedCall(w, after, t.id, e, ended)
    ensures StateAt(r.breakers, BreakerOf(r, after, t.id), after.now).Closed? <==> FailureRun(h) + n < r.breakers.threshold
    ensures FailureRun(h) + n < r.breakers.threshold ==> AsBefore(r, h, after, t.id, n + 1)
  {
    FailedAdds(OpsOf(w.history, t.id), ended);
    AdmissionRule(r.breakers, OpsOf(after.history, t.id), after.now);
  }

  /** A failed attempt is decided as the reference says. */
  predicate Decided(r: Request, script: Script, h: seq<Op>, t: Target, n: nat, w: World, e: ErrorKind, tried: Tried)
    requires n >= 1
  {
    var again, done := AgainAt(r, script, t, n, e, w.calls, w.now), DoneBy(r, script, t, w.calls, w.now);
    var due := RetryDue(r, h, t, n, e, again);
    && (tried.step.Fatal? || tried.step.Again? || tried.step.MoveOn?)
    && tried.step.record == FailedAttempt(t, n, e, BreakerAt(r, h, n))
    && (tried.step.Fatal? <==> e.BadRequest?) && (tried.step.Again? <==> due)
    && AfterFailedCall(w, tried.world, t.id, e, EndOf(r, script, t, w.calls, w.now))
    && tried.world.now == (if due then again else done)
  }

  /** Whether a retry follows an error. */
  lemma RetryIsDue(r: Request, h: seq<Op>, t: Target, n: nat, w: World, after: World, e: ErrorKind, ended: real, jitter: real)
    requires n >= 1 && AsBefore(r, h, w, t.id, n) && AfterFailedCall(w, after, t.id, e, ended)
    ensures ShouldRetry(r, after, t, n, e, jitter) <==> RetryDue(r, h, t, n, e, after.now + Delay(r, n, e, jitter))
  {
    if Retryable(e) {
      ClosedAfter(r, h, w, after, t, n, e, ended);
    }
  }

  lemma RetriedIsAsBefore(r: Request, h: seq<Op>, t: Target, n: nat, w: World, after: World, e: ErrorKind, ended: real, again: real)
    requires n >= 1 && AsBefore(r, h, w, t.id, n) && AfterFailedCall(w, after, t.id, e, ended)
    requires RetryDue(r, h, t, n, e, again)
    ensures AsBefore(r, h, after, t.id, n + 1)
  {
    ClosedAfter(r, h, w, after, t, n, e, ended);
  }

  lemma OnErrorDecides(r: Request, script: Script, h: seq<Op>, t: Target, n: nat, w: World, e: ErrorKind, ended: World)
    requires n >= 1 && ended == w.(now := EndOf(r, script, t, w.calls, w.now), calls := w.calls + 1)
    requires var after := AfterError(ended, t, e, ReplyTo(script, w.calls).recording);
      ShouldRetry(r, after, t, n, e, ReplyTo(script, w.calls).jitter) <==>
      RetryDue(r, h, t, n, e, AgainAt(r, script, t, n, e, w.calls, w.now))
    ensures Decided(r, script, h, t, n, w, e, OnError(r, t, n, e, ReplyTo(script, w.calls), BreakerAt(r, h, n), ended))
  {
    DelayIsWait(r, n, e, ReplyTo(script, w.calls).jitter);
  }

  /** What a failed call leaves, as the walk computes it. */
  function Ended(r: Request, script: Script, t: Target, w: World): World {
    w.(now := w.now + Min(ReplyTo(script, w.calls).took, Min(t.timeout, r.deadline - w.now)), calls := w.calls + 1)
  }

  lemma ErredTry(r: Request, script: Script, t: Target, n: nat, w: World, e: ErrorKind, breaker: BreakerState)
    requires n >= 1 && w.now < r.deadline && breaker == StateAt(r.breakers, BreakerOf(r, w, t.id), w.now)
    requires CallResult(ReplyTo(script, w.calls), Min(t.timeout, r.deadline - w.now)) == Erred(e)
    ensures Try(r, script, t, n, w) == OnError(r, t, n, e, ReplyTo(script, w.calls), breaker, Ended(r, script, t, w))
  {
  }

  lemma TryIsOnError(r: Request, script: Script, t: Target, n: nat, w: World, e: ErrorKind) returns (ended: World)
    requires n >= 1 && w.now < r.deadline
    requires ErrorOf(ReplyTo(script, w.calls), TimeLimit(r, t, w.now)) == Some(e)
    ensures ended == w.(now := EndOf(r, script, t, w.calls, w.now), calls := w.calls + 1)
    ensures Try(r, script, t, n, w)
      == OnError(r, t, n, e, ReplyTo(script, w.calls), StateAt(r.breakers, BreakerOf(r, w, t.id), w.now), ended)
  {
    LimitIsTimeLimit(r, t, w.now);
    CallErrs(ReplyTo(script, w.calls), TimeLimit(r, t, w.now), e);
    ended := Ended(r, script, t, w);
    ErredTry(r, script, t, n, w, e, StateAt(r.breakers, BreakerOf(r, w, t.id), w.now));
  }

  lemma LimitIsTimeLimit(r: Request, t: Target, now: real)
    ensures Min(t.timeout, r.deadline - now) == TimeLimit(r, t, now)
  {
  }

  lemma CallErrs(reply: Reply, limit: real, e: ErrorKind)
    requires ErrorOf(reply, limit) == Some(e)
    ensures CallResult(reply, limit) == Erred(e) && Min(reply.took, limit) == Least(reply.took, limit)
  {
  }

  lemma ErrorFollows(r: Request, script: Script, h: seq<Op>, t: Target, n: nat, w: World, e: ErrorKind)
    requires n >= 1 && w.now < r.deadline && AsBefore(r, h, w, t.id, n)
    requires ErrorOf(ReplyTo(script, w.calls), TimeLimit(r, t, w.now)) == Some(e)
    ensures Decided(r, script, h, t, n, w, e, Try(r, script, t, n, w))
  {
    var ended := TryIsOnError(r, script, t, n, w, e);
    var reply := ReplyTo(script, w.calls);
    BreakerIsAt(r, h, w, t.id, n);
    RetryIsDue(r, h, t, n, w, AfterError(ended, t, e, reply.recording), e, ended.now, reply.jitter);
    DelayIsWait(r, n, e, reply.jitter);
    OnErrorDecides(r, script, h, t, n, w, e, ended);
  }

  lemma OtherwiseFollows(r: Request, script: Script, h: seq<Op>, k: nat, n: nat, w: World)
    requires k < |r.targets| && n >= 1 && w.now < r.deadline && AsBefore(r, h, w, r.targets[k].id, n)
    requires ErrorOf(ReplyTo(script, w.calls), TimeLimit(r, r.targets[k], w.now)).None?
    ensures var tried, reply := Try(r, script, r.targets[k], n, w), ReplyTo(script, w.calls);
      && EndsRequest(tried.step) && RecordOf(tried.step) == [] && OpeningOf(k, n, tried.step) == OpeningBy(r, h, k, n, reply)
      && tried.world == w.(calls := w.calls + 1, now := w.now + reply.took)
  {
    BreakerIsAt(r, h, w, r.targets[k].id, n);
  }

  // ------------------------------------------------------------------ all of it

  /** The report and the world it ends in are those of the course, from world w on; of the breakers
      only one is looked at. */
  predicate IsCourse(c: Course, rep: Report, w: World, id: ModelId) {
    && rep.result == c.opening && rep.log == c.log && rep.world.calls == c.calls && rep.world.now == c.now
    && OpsOf(rep.world.history, id) == OpsOf(w.history, id) + OpsFor(c.told, id)
  }

  /** The breaker was told so between the two worlds. */
  predicate WasTold(w: World, after: World, told: seq<Told>, id: ModelId) {
    OpsOf(after.history, id) == OpsOf(w.history, id) + OpsFor(told, id)
  }

  lemma {:induction false} OpsForUnion(a: seq<Told>, b: seq<Told>, id: ModelId)
    ensures OpsFor(a + b, id) == OpsFor(a, id) + OpsFor(b, id)
  {
    if b == [] {
      assert a + b == a;
    } else {
      var init := b[..|b| - 1];
      OpsForUnion(a, init, id);
      assert (a + b)[..|a + b| - 1] == a + init;
    }
  }

  lemma CourseOnMore(log: seq<Attempt>, told: seq<Told>, rest: Course, tail: Report, w: World, after: World, id: ModelId)
    requires IsCourse(rest, tail, after, id) && WasTold(w, after, told, id)
    ensures IsCourse(Before(log, told, rest), Prefixed(log, tail), w, id)
  {
    OpsForUnion(told, rest.told, id);
    assert OpsOf(w.history, id) + OpsFor(told, id) + OpsFor(rest.told, id)
      == OpsOf(w.history, id) + (OpsFor(told, id) + OpsFor(rest.told, id));
  }

  lemma ToldNothing(w: World, after: World, id: ModelId)
    requires after.history == w.history
    ensures WasTold(w, after, [], id)
  {
    assert OpsOf(w.history, id) + [] == OpsOf(w.history, id);
  }

  lemma ToldOnce(w: World, after: World, model: ModelId, op: Op, id: ModelId)
    requires after.history == w.history[model := OpsOf(w.history, model) + [op]]
    ensures WasTold(w, after, [Told(model, op)], id)
  {
    assert [Told(model, op)][..0] == [];
    assert OpsOf(w.history, id) + [] == OpsOf(w.history, id);
  }

  /** The models of the first k targets. */
  function FirstModels(r: Request, k: nat): set<ModelId>
    requires k <= |r.targets|
  {
    set i | 0 <= i < k :: r.targets[i].id
  }

  /** All models but those of the first k targets have their histories from before the request. */
  ghost predicate Untold(r: Request, history: map<ModelId, seq<Op>>, w: World, k: nat)
    requires k <= |r.targets|
  {
    forall id :: id !in FirstModels(r, k) ==> OpsOf(w.history, id) == OpsOf(history, id)
  }

  lemma NextIsUntold(r: Request, history: map<ModelId, seq<Op>>, w: World, k: nat)
    requires Distinct(r.targets) && k < |r.targets| && Untold(r, history, w, k)
    ensures OpsOf(w.history, r.targets[k].id) == OpsOf(history, r.targets[k].id)
    ensures Untold(r, history, w, k + 1)
  {
    assert r.targets[k].id !in FirstModels(r, k);
    assert FirstModels(r, k + 1) == FirstModels(r, k) + {r.targets[k].id};
  }

  lemma UntoldAfter(r: Request, history: map<ModelId, seq<Op>>, w: World, after: World, k: nat)
    requires k < |r.targets| && Untold(r, history, w, k + 1)
    requires after.history == w.history
      || (r.targets[k].id in after.history && after.history == w.history[r.targets[k].id := after.history[r.targets[k].id]])
    ensures Untold(r, history, after, k + 1)
  {
    assert r.targets[k].id in FirstModels(r, k + 1);
  }

  function ToldAtAdmission(r: Request, t: Target, now: real): seq<Told> {
    if t.id in r.blocked || !t.enabled then [] else [Told(t.id, Asked(now))]
  }

  lemma AdmissionTells(r: Request, w: World, t: Target, id: ModelId)
    ensures WasTold(w, AfterAdmission(r, w, t), ToldAtAdmission(r, t, w.now), id)
  {
    if t.id in r.blocked || !t.enabled {
      ToldNothing(w, AfterAdmission(r, w, t), id);
    } else {
      ToldOnce(w, AfterAdmission(r, w, t), t.id, Asked(w.now), id);
    }
  }

  function ToldOfError(model: ModelId, e: ErrorKind, ended: real): seq<Told> {
    if IsTold(e) then [Told(model, FailedAt(ended))] else []
  }

  lemma FailureTells(w: World, after: World, model: ModelId, e: ErrorKind, ended: real, id: ModelId)
    requires AfterFailedCall(w, after, model, e, ended)
    ensures WasTold(w, after, ToldOfError(model, e, ended), id)
  {
    if IsTold(e) {
      ToldOnce(w, after, model, FailedAt(ended), id);
    } else {
      ToldNothing(w, after, id);
    }
  }

  lemma ReferenceAtTarget(r: Request, script: Script, history: map<ModelId, seq<Op>>, k: nat, calls: nat, now: real)
    requires Sane(r) && k < |r.targets|
    ensures var t := r.targets[k];
      var why, told := WhySkipped(r, OpsOf(history, t.id), t, now), ToldAtAdmission(r, t, now);
      && t.maxAttempts >= 1
      && Reference(r, script, history, k, 0, calls, now) ==
        if why.Some? then
          Before([SkipRecord(t, why.value)], told, Reference(r, script, history, k + 1, 0, calls, now))
        else Before([], told, Reference(r, script, history, k, 1, calls, now))
  {
    assert SaneTarget(r.targets[k]);
  }

  lemma ReferenceRetries(
      r: Request, script: Script, history: map<ModelId, seq<Op>>, k: nat, n: nat, calls: nat, now: real, e: ErrorKind)
    requires Sane(r) && k < |r.targets| && 1 <= n < r.targets[k].maxAttempts && now < r.deadline
    requires ErrorOf(ReplyTo(script, calls), TimeLimit(r, r.targets[k], now)) == Some(e)
    requires RetryDue(r, OpsOf(history, r.targets[k].id), r.targets[k], n, e, AgainAt(r, script, r.targets[k], n, e, calls, now))
    ensures var t, h := r.targets[k], OpsOf(history, r.targets[k].id);
      Reference(r, script, history, k, n, calls, now) ==
      Before([FailedAttempt(t, n, e, BreakerAt(r, h, n))], ToldOfError(t.id, e, EndOf(r, script, t, calls, now)),
             Reference(r, script, history, k, n + 1, calls + 1, AgainAt(r, script, t, n, e, calls, now)))
  {
  }

  lemma ReferenceMovesOn(
      r: Request, script: Script, history: map<ModelId, seq<Op>>, k: nat, n: nat, calls: nat, now: real, e: ErrorKind)
    requires Sane(r) && k < |r.targets| && 1 <= n <= r.targets[k].maxAttempts && now < r.deadline && !e.BadRequest?
    requires ErrorOf(ReplyTo(script, calls), TimeLimit(r, r.targets[k], now)) == Some(e)
    requires !RetryDue(r, OpsOf(history, r.targets[k].id), r.targets[k], n, e, AgainAt(r, script, r.targets[k], n, e, calls, now))
    ensures var t, h := r.targets[k], OpsOf(history, r.targets[k].id);
      Reference(r, script, history, k, n, calls, now) ==
      Before([FailedAttempt(t, n, e, BreakerAt(r, h, n))], ToldOfError(t.id, e, EndOf(r, script, t, calls, now)),
             Reference(r, script, history, k + 1, 0, calls + 1, DoneBy(r, script, t, calls, now)))
  {
  }

  lemma ReferenceRejects(
      r: Request, script: Script, history: map<ModelId, seq<Op>>, k: nat, n: nat, calls: nat, now: real, e: ErrorKind)
    requires Sane(r) && k < |r.targets| && 1 <= n <= r.targets[k].maxAttempts && now < r.deadline && e.BadRequest?
    requires ErrorOf(ReplyTo(script, calls), TimeLimit(r, r.targets[k], now)) == Some(e)
    ensures var t, h := r.targets[k], OpsOf(history, r.targets[k].id);
      Reference(r, script, history, k, n, calls, now) ==
      Course(Refused(BadRequestCode, k), [FailedAttempt(t, n, e, BreakerAt(r, h, n))], calls + 1,
             DoneBy(r, script, t, calls, now), ToldOfError(t.id, e, EndOf(r, script, t, calls, now)))
  {
  }

  lemma {:induction false} TargetFollows(
      r: Request, script: Script, history: map<ModelId, seq<Op>>, k: nat, w: World, rep: Report, id: ModelId)
    requires Fine(r) && k <= |r.targets| && Untold(r, history, w, k) && rep == Walk(r, script, k, 0, w)
    ensures IsCourse(Reference(r, script, history, k, 0, w.calls, w.now), rep, w, id)
    decreases |r.targets| - k, 1, 0, 0
  {
    if k == |r.targets| {
      ToldNothing(w, rep.world, id);
    } else {
      var t := r.targets[k];
      var admitted, skip := AfterAdmission(r, w, t), SkipFor(r, w, t);
      WalkAtTarget(r, script, k, w);
      ReferenceAtTarget(r, script, history, k, w.calls, w.now);
      SkipIsWhy(r, w, t);
      NextIsUntold(r, history, w, k);
      AdmissionTells(r, w, t, id);
      UntoldAfter(r, history, w, admitted, k);
      if skip.Some? {
        NextTargetFollows(r, script, history, k, w, admitted, SkipRecord(t, skip.value), ToldAtAdmission(r, t, w.now), id);
      } else {
        AdmittedIsAsBefore(r, w, t);
        AttemptFollows(r, script, history, k, 1, admitted, rep, id);
        CourseOnMore([], ToldAtAdmission(r, t, w.now), Reference(r, script, history, k, 1, w.calls, w.now), rep, w, admitted, id);
        assert Prefixed([], rep) == rep;
      }
    }
  }

  /** The next target, after this one's record. */
  lemma {:induction false} NextTargetFollows(
      r: Request, script: Script, history: map<ModelId, seq<Op>>, k: nat, w: World, after: World, record: Attempt,
      told: seq<Told>, id: ModelId)
    requires Fine(r) && k < |r.targets| && Untold(r, history, after, k + 1) && WasTold(w, after, told, id)
    ensures IsCourse(
      Before([record], told, Reference(r, script, history, k + 1, 0, after.calls, after.now)),
      Prefixed([record], Walk(r, script, k + 1, 0, after)), w, id)
    decreases |r.targets| - k, 0, 0, 0
  {
    var tail, rest := Walk(r, script, k + 1, 0, after), Reference(r, script, history, k + 1, 0, after.calls, after.now);
    TargetFollows(r, script, history, k + 1, after, tail, id);
    CourseOnMore([record], told, rest, tail, w, after, id);
  }

  /** An attempt that is not made for lack of time, or that does not fail. */
  lemma EndFollows(
      r: Request, script: Script, history: map<ModelId, seq<Op>>, k: nat, n: nat, w: World, rep: Report, id: ModelId)
    requires Fine(r) && k < |r.targets| && 1 <= n <= r.targets[k].maxAttempts
    requires AsBefore(r, OpsOf(history, r.targets[k].id), w, r.targets[k].id, n)
    requires rep == Walk(r, script, k, n, w)
    requires w.now >= r.deadline || ErrorOf(ReplyTo(script, w.calls), TimeLimit(r, r.targets[k], w.now)).None?
    ensures IsCourse(Reference(r, script, history, k, n, w.calls, w.now), rep, w, id)
  {
    var tried := Try(r, script, r.targets[k], n, w);
    WalkAfterTry(r, script, k, n, w, tried.step, tried.world);
    if w.now < r.deadline {
      OtherwiseFollows(r, script, OpsOf(history, r.targets[k].id), k, n, w);
    }
    ToldNothing(w, tried.world, id);
  }

  lemma {:induction false} AttemptFollows(
      r: Request, script: Script, history: map<ModelId, seq<Op>>, k: nat, n: nat, w: World, rep: Report, id: ModelId)
    requires Fine(r) && k < |r.targets| && 1 <= n <= r.targets[k].maxAttempts
    requires Untold(r, history, w, k + 1) && AsBefore(r, OpsOf(history, r.targets[k].id), w, r.targets[k].id, n)
    requires rep == Walk(r, script, k, n, w)
    ensures IsCourse(Reference(r, script, history, k, n, w.calls, w.now), rep, w, id)
    decreases |r.targets| - k, 0, r.targets[k].maxAttempts - n, 3
  {
    var error := ErrorOf(ReplyTo(script, w.calls), TimeLimit(r, r.targets[k], w.now));
    if w.now >= r.deadline || error.None? {
      EndFollows(r, script, history, k, n, w, rep, id);
    } else {
      FailureFollows(r, script, history, k, n, w, error.value, rep, Try(r, script, r.targets[k], n, w), id);
    }
  }

  lemma {:induction false} FailureFollows(
      r: Request, script: Script, history: map<ModelId, seq<Op>>, k: nat, n: nat, w: World, e: ErrorKind, rep: Report, tried: Tried,
      id: ModelId)
    requires Fine(r) && k < |r.targets| && 1 <= n <= r.targets[k].maxAttempts && w.now < r.deadline
    requires Untold(r, history, w, k + 1) && AsBefore(r, OpsOf(history, r.targets[k].id), w, r.targets[k].id, n)
    requires ErrorOf(ReplyTo(script, w.calls), TimeLimit(r, r.targets[k], w.now)) == Some(e)
    requires tried == Try(r, script, r.targets[k], n, w) && rep == Walk(r, script, k, n, w)
    ensures IsCourse(Reference(r, script, history, k, n, w.calls, w.now), rep, w, id)
    decreases |r.targets| - k, 0, r.targets[k].maxAttempts - n, 2
  {
    WalkAfterTry(r, script, k, n, w, tried.step, tried.world);
    ErrorFollows(r, script, OpsOf(history, r.targets[k].id), r.targets[k], n, w, e);
    if tried.step.Again? {
      AgainFollows(r, script, history, k, n, w, e, tried.step.record, tried.world, id);
    } else if tried.step.MoveOn? {
      MoveOnFollows(r, script, history, k, n, w, e, tried.step.record, tried.world, id);
    } else {
      FatalFollows(r, script, history, k, n, w, e, tried.step.record, tried.world, id);
    }
  }

  lemma DecidedAgain(
      r: Request, script: Script, h: seq<Op>, t: Target, n: nat, w: World, e: ErrorKind, record: Attempt, after: World)
    requires n >= 1 && Decided(r, script, h, t, n, w, e, Tried(Again(record), after))
    ensures record == FailedAttempt(t, n, e, BreakerAt(r, h, n))
    ensures AfterFailedCall(w, after, t.id, e, EndOf(r, script, t, w.calls, w.now))
    ensures after.now == AgainAt(r, script, t, n, e, w.calls, w.now) && RetryDue(r, h, t, n, e, after.now)
  {
  }

  lemma DecidedMoveOn(
      r: Request, script: Script, h: seq<Op>, t: Target, n: nat, w: World, e: ErrorKind, record: Attempt, after: World)
    requires n >= 1 && Decided(r, script, h, t, n, w, e, Tried(MoveOn(record), after))
    ensures record == FailedAttempt(t, n, e, BreakerAt(r, h, n)) && !e.BadRequest?
    ensures AfterFailedCall(w, after, t.id, e, EndOf(r, script, t, w.calls, w.now))
    ensures after.now == DoneBy(r, script, t, w.calls, w.now)
    ensures !RetryDue(r, h, t, n, e, AgainAt(r, script, t, n, e, w.calls, w.now))
  {
  }

  lemma {:induction false} AgainFollows(
      r: Request, script: Script, history: map<ModelId, seq<Op>>, k: nat, n: nat, w: World, e: ErrorKind, record: Attempt, after: World,
      id: ModelId)
    requires Fine(r) && k < |r.targets| && 1 <= n < r.targets[k].maxAttempts && w.now < r.deadline
    requires Untold(r, history, w, k + 1) && AsBefore(r, OpsOf(history, r.targets[k].id), w, r.targets[k].id, n)
    requires ErrorOf(ReplyTo(script, w.calls), TimeLimit(r, r.targets[k], w.now)) == Some(e)
    requires Decided(r, script, OpsOf(history, r.targets[k].id), r.targets[k], n, w, e, Tried(Again(record), after))
    ensures IsCourse(Reference(r, script, history, k, n, w.calls, w.now), Prefixed([record], Walk(r, script, k, n + 1, after)), w, id)
    decreases |r.targets| - k, 0, r.targets[k].maxAttempts - n, 1
  {
    var t := r.targets[k];
    var ended := EndOf(r, script, t, w.calls, w.now);
    DecidedAgain(r, script, OpsOf(history, t.id), t, n, w, e, record, after);
    FailureTells(w, after, t.id, e, ended, id);
    UntoldAfter(r, history, w, after, k);
    RetriedIsAsBefore(r, OpsOf(history, t.id), t, n, w, after, e, ended, after.now);
    RetryFollows(r, script, history, k, n, w, after, record, ToldOfError(t.id, e, ended),
      Reference(r, script, history, k, n + 1, after.calls, after.now), Walk(r, script, k, n + 1, after), id);
    ReferenceRetries(r, script, history, k, n, w.calls, w.now, e);
  }

  lemma {:induction false} MoveOnFollows(
      r: Request, script: Script, history: map<ModelId, seq<Op>>, k: nat, n: nat, w: World, e: ErrorKind, record: Attempt, after: World,
      id: ModelId)
    requires Fine(r) && k < |r.targets| && 1 <= n <= r.targets[k].maxAttempts && w.now < r.deadline
    requires Untold(r, history, w, k + 1)
    requires ErrorOf(ReplyTo(script, w.calls), TimeLimit(r, r.targets[k], w.now)) == Some(e)
    requires Decided(r, script, OpsOf(history, r.targets[k].id), r.targets[k], n, w, e, Tried(MoveOn(record), after))
    ensures IsCourse(Reference(r, script, history, k, n, w.calls, w.now), Prefixed([record], Walk(r, script, k + 1, 0, after)), w, id)
    decreases |r.targets| - k, 0, r.targets[k].maxAttempts - n, 1
  {
    var t := r.targets[k];
    var ended := EndOf(r, script, t, w.calls, w.now);
    DecidedMoveOn(r, script, OpsOf(history, t.id), t, n, w, e, record, after);
    ReferenceMovesOn(r, script, history, k, n, w.calls, w.now, e);
    FailureTells(w, after, t.id, e, ended, id);
    UntoldAfter(r, history, w, after, k);
    NextTargetFollows(r, script, history, k, w, after, record, ToldOfError(t.id, e, ended), id);
  }

  lemma FatalFollows(
      r: Request, script: Script, history: map<ModelId, seq<Op>>, k: nat, n: nat, w: World, e: ErrorKind, record: Attempt, after: World,
      id: ModelId)
    requires Fine(r) && k < |r.targets| && 1 <= n <= r.targets[k].maxAttempts && w.now < r.deadline
    requires Untold(r, history, w, k + 1) && AsBefore(r, OpsOf(history, r.targets[k].id), w, r.targets[k].id, n)
    requires ErrorOf(ReplyTo(script, w.calls), TimeLimit(r, r.targets[k], w.now)) == Some(e)
    requires Decided(r, script, OpsOf(history, r.targets[k].id), r.targets[k], n, w, e, Tried(Fatal(record), after))
    ensures IsCourse(Reference(r, script, history, k, n, w.calls, w.now), Report(Refused(BadRequestCode, k), [record], after), w, id)
  {
    var t := r.targets[k];
    var ended := EndOf(r, script, t, w.calls, w.now);
    FailureTells(w, after, t.id, e, ended, id);
    ReferenceRejects(r, script, history, k, n, w.calls, w.now, e);
  }

  lemma {:induction false} RetryFollows(
      r: Request, script: Script, history: map<ModelId, seq<Op>>, k: nat, n: nat, w: World, after: World, record: Attempt,
      told: seq<Told>, rest: Course, tail: Report, id: ModelId)
    requires Fine(r) && k < |r.targets| && 1 <= n < r.targets[k].maxAttempts
    requires Untold(r, history, after, k + 1) && AsBefore(r, OpsOf(history, r.targets[k].id), after, r.targets[k].id, n + 1)
    requires WasTold(w, after, told, id)
    requires rest == Reference(r, script, history, k, n + 1, after.calls, after.now) && tail == Walk(r, script, k, n + 1, after)
    ensures IsCourse(Before([record], told, rest), Prefixed([record], tail), w, id)
    decreases |r.targets| - k, 0, r.targets[k].maxAttempts - n, 0
  {
    AttemptFollows(r, script, history, k, n + 1, after, tail, id);
    CourseOnMore([record], told, rest, tail, w, after, id);
  }

  // ------------------------------------------------------------------ whole requests

  /** For every script the walk over the targets is the reference's course: how it ends, its log, its
      calls and its time, and what each breaker is told. */
  lemma WalkIsReference(r: Request, script: Script, w: World, id: ModelId)
    requires Fine(r)
    ensures IsCourse(Reference(r, script, w.history, 0, 0, w.calls, w.now), Walk(r, script, 0, 0, w), w, id)
  {
    assert FirstModels(r, 0) == {};
    TargetFollows(r, script, w.history, 0, w, Walk(r, script, 0, 0, w), id);
  }

  lemma {:induction false} PricedIsProduct(price: real, tokens: nat)
    ensures Priced(price, tokens) == price * tokens as real
  {
    if tokens > 0 {
      PricedIsProduct(price, tokens - 1);
      assert price * tokens as real == price * (tokens - 1) as real + price by {
        Distributes(price, (tokens - 1) as real, 1.0);
      }
    }
  }

  lemma Distributes(a: real, b: real, c: real)
    ensures a * (b + c) == a * b + a * c
  {
  }

  /** A million times the cost is each price times its tokens. */
  predicate IsCost(cost: real, t: Target, usage: Usage) {
    cost * 1000000.0 == t.promptPrice * usage.prompt as real + t.completionPrice * usage.completion as real
  }

  lemma CostIsPriced(t: Target, usage: Usage)
    ensures IsCost(Cost(t, usage), t, usage)
  {
    PricedIsProduct(t.promptPrice, usage.prompt);
    PricedIsProduct(t.completionPrice, usage.completion);
  }

  /** What a chat request makes of its course: an answer adds its priced record and tells its breaker
      of the success; anything else is reported as it is. */
  ghost predicate ChatOf(r: Request, course: Course, w: World, c: ChatReport, id: ModelId) {
    match course.opening
    case Arrived(k, n, usage, _, recording, breaker) =>
      && k < |r.targets| && c.result == Served(k, usage)
      && c.log != [] && c.log[..|c.log| - 1] == course.log
      && (var last := c.log[|c.log| - 1];
          && last == Attempt(r.targets[k].id, n, Success, None, last.cost, breaker) && IsCost(last.cost, r.targets[k], usage))
      && c.world.now == course.now + recording && c.world.calls == course.calls
      && OpsOf(c.world.history, id)
         == OpsOf(w.history, id) + OpsFor(course.told, id) + (if r.targets[k].id == id then [Succeeded] else [])
    case _ =>
      && c.log == course.log && c.world.now == course.now && c.world.calls == course.calls
      && OpsOf(c.world.history, id) == OpsOf(w.history, id) + OpsFor(course.told, id)
      && match course.opening
         case Refused(code, _) => c.result == Raised(code)
         case Cut(_, why) => c.result == CutShort(why)
         case _ => c.result == Raised(if forall a :: a in c.log ==> a.outcome.Skipped? then NoAvailableProvider else ProviderUnavailable)
  }

  /** For every script a chat request is what the reference's course comes to. */
  lemma ChatIsReference(r: Request, script: Script, w: World, id: ModelId)
    requires Fine(r)
    ensures ChatOf(r, Reference(r, script, w.history, 0, 0, w.calls, w.now), w, RunChat(r, script, w), id)
  {
    WalkIsReference(r, script, w, id);
    CourseIsChat(r, Reference(r, script, w.history, 0, 0, w.calls, w.now), w, Walk(r, script, 0, 0, w), id);
  }

  lemma CourseIsChat(r: Request, course: Course, w: World, rep: Report, id: ModelId)
    requires IsCourse(course, rep, w, id) && (rep.result.Arrived? ==> rep.result.k < |r.targets|)
    ensures ChatOf(r, course, w, ChatFrom(r, rep), id)
  {
    if rep.result.Arrived? {
      CostIsPriced(r.targets[rep.result.k], rep.result.usage);
      assert OpsOf(w.history, id) + OpsFor(course.told, id) + [] == OpsOf(w.history, id) + OpsFor(course.told, id);
    }
  }

  /** Without permission exactly the models that send data off the box are blocked; with it, none. */
  lemma BlockedIffOutside(targets: seq<Target>, allowEgress: bool, id: ModelId)
    ensures id in EgressBlocked(targets, allowEgress) <==>
      !allowEgress && exists i :: 0 <= i < |targets| && targets[i].id == id && targets[i].dataEgress
  {
    if !allowEgress && exists i :: 0 <= i < |targets| && targets[i].id == id && targets[i].dataEgress {
      var i :| 0 <= i < |targets| && targets[i].id == id && targets[i].dataEgress;
      assert targets[i] in targets;
    }
  }
}
