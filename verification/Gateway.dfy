/**
  The LLM gateway of `gateway/gateway.py`: fallback chains, retries, deadlines, circuit breaking
  and streaming.

  Providers are an arbitrary script of any length: what happens on each provider call, in order;
  past its end providers are unavailable.
  `Walk` specifies the part that chat and streaming share - everything up to the moment a
  provider answers (or its first stream item arrives) - as a walk over the targets.
 */
module Gateway {
  import opened Common
  import opened Resilience

  type ModelId = string

  /** A catalog model with the settings of its provider. */
  datatype Target = Target(
    id: ModelId, enabled: bool, dataEgress: bool, timeout: real, maxAttempts: nat, promptPrice: real, completionPrice: real)

  datatype Usage = Usage(prompt: nat, completion: nat)

  datatype ErrorKind =
    | Timeout | Unavailable | RateLimited(retryAfter: Option<real>)
    | Auth | ModelNotFound | BadRequest | BadResponse | Unclassified

  predicate Retryable(e: ErrorKind) {
    e.Timeout? || e.Unavailable? || e.RateLimited?
  }

  predicate CountsAgainstBreaker(e: ErrorKind) {
    Retryable(e) || e.Auth? || e.BadResponse?
  }

  // ------------------------------------------------------------------ what providers do

  /** A stream from one of its items on.  The client holds a delta for `held` seconds, and the
      next item takes `took` seconds; `Stopped` is an end without a completion marker,
      `Abandoned` the client going away, and `Crashed` the adapter raising what is no provider
      error. */
  datatype Stream =
    | Delta(text: string, held: real, took: real, next: Stream)
    | End(usage: Usage)
    | Broken(error: ErrorKind)
    | Stopped
    | Abandoned
    | Crashed

  predicate IsItem(s: Stream) {
    s.Delta? || s.End? || s.Abandoned?
  }

  type Opened = s: Stream | IsItem(s) witness Abandoned

  /** A call that is answered carries the usage of the whole answer and, when it is streamed,
      the stream from its first item; one that crashes raises what is no provider error. */
  datatype Answer = Arrives(usage: Usage, stream: Opened) | Fails(error: ErrorKind) | Leaves | Crashes

  /** Why a request ends without an outcome of its own: its exception goes on to the caller. */
  datatype Abort = ClientLeft | AdapterCrashed

  /** One call: its outcome after `took` seconds if the timeout allows, the time its usage
      record takes to write, and the random backoff that would precede a retry. */
  datatype Reply = Reply(answer: Answer, took: real, recording: real, jitter: real)

  type Script = seq<Reply>

  const SILENCE := Reply(Fails(Unavailable), 0.0, 0.0, 0.0)

  function ReplyTo(script: Script, call: nat): Reply {
    if call < |script| then script[call] else SILENCE
  }

  predicate SaneTarget(t: Target) {
    t.timeout > 0.0 && t.maxAttempts >= 1
  }

  // ------------------------------------------------------------------ records

  datatype SkipReason = EgressNotPermitted | ProviderDisabled | CircuitOpen

  datatype Outcome = Success | Failure | TimedOut | Skipped(reason: SkipReason)

  /** `breaker` is the state of the model's breaker when the attempt started; the other fields
      are the record's own. */
  datatype Attempt = Attempt(
    model: ModelId, number: nat, outcome: Outcome, error: Option<ErrorKind>, cost: real, breaker: BreakerState)

  datatype Code = BadRequestCode | ProviderUnavailable | NoAvailableProvider | DeadlineExceeded

  /** So many tokens at a price each. */
  function Priced(price: real, tokens: nat): real {
    if tokens == 0 then 0.0 else price + Priced(price, tokens - 1)
  }

  /** Prices are per million tokens. */
  function Cost(t: Target, u: Usage): real {
    (Priced(t.promptPrice, u.prompt) + Priced(t.completionPrice, u.completion)) / 1000000.0
  }

  // ------------------------------------------------------------------ one request

  datatype Request = Request(
    targets: seq<Target>, blocked: set<ModelId>, deadline: real, breakers: Config, backoffBase: real, backoffCap: real)

  /** `_egress_blocked`: without permission to leave the box, every target that would. */
  function EgressBlocked(targets: seq<Target>, allowEgress: bool): set<ModelId> {
    if allowEgress then {} else set t | t in targets && t.dataEgress :: t.id
  }

  /** Everything a request reads and changes; a breaker is the replay of its model's history. */
  datatype World = World(now: real, calls: nat, history: map<ModelId, seq<Op>>)

  function OpsOf(history: map<ModelId, seq<Op>>, id: ModelId): seq<Op> {
    if id in history then history[id] else []
  }

  function Noted(w: World, id: ModelId, op: Op): World {
    w.(history := w.history[id := OpsOf(w.history, id) + [op]])
  }

  function BreakerOf(r: Request, w: World, id: ModelId): Breaker {
    Replay(r.breakers, OpsOf(w.history, id))
  }

  function SkipFor(r: Request, w: World, t: Target): Option<SkipReason> {
    if t.id in r.blocked then Some(EgressNotPermitted)
    else if !t.enabled then Some(ProviderDisabled)
    else if !Admits(r.breakers, BreakerOf(r, w, t.id), w.now) then Some(CircuitOpen)
    else None
  }

  /** The breaker is asked only when nothing else skips the target. */
  function AfterAdmission(r: Request, w: World, t: Target): World {
    if t.id in r.blocked || !t.enabled then w else Noted(w, t.id, Asked(w.now))
  }

  function Min(a: real, b: real): real {
    if a <= b then a else b
  }

  /** The base doubled n times. */
  function Doubled(base: real, n: nat): real {
    if n == 0 then base else 2.0 * Doubled(base, n - 1)
  }

  /** `BackoffPolicy.delay`: a provider's Retry-After up to the cap, or a random value below
      the exponential ceiling. */
  function Delay(r: Request, attempt: nat, e: ErrorKind, jitter: real): real
    requires attempt >= 1
  {
    if e.RateLimited? && e.retryAfter.Some? then Min(e.retryAfter.value, r.backoffCap)
    else Min(jitter, Min(r.backoffCap, Doubled(r.backoffBase, attempt - 1)))
  }

  predicate ShouldRetry(r: Request, w: World, t: Target, n: nat, e: ErrorKind, jitter: real)
    requires n >= 1
  {
    && Retryable(e) && n < t.maxAttempts
    && StateAt(r.breakers, BreakerOf(r, w, t.id), w.now).Closed?
    && w.now + Delay(r, n, e, jitter) < r.deadline
  }

  // ------------------------------------------------------------------ specification: opening

  datatype Opening =
    | Arrived(k: nat, n: nat, usage: Usage, stream: Opened, recording: real, breaker: BreakerState)
    | Refused(code: Code, k: nat)
    | Exhausted
    | Cut(k: nat, why: Abort)

  datatype Report = Report(result: Opening, log: seq<Attempt>, world: World)

  function Prefixed(log: seq<Attempt>, rest: Report): Report {
    rest.(log := log + rest.log)
  }

  lemma PrefixedTwice(log: seq<Attempt>, a: Attempt, rest: Report)
    ensures Prefixed(log, Prefixed([a], rest)) == Prefixed(log + [a], rest)
  {
    assert log + ([a] + rest.log) == log + [a] + rest.log;
  }

  function SkipRecord(t: Target, why: SkipReason): Attempt {
    Attempt(t.id, 0, Skipped(why), None, 0.0, Open)
  }

  function FailRecord(t: Target, n: nat, e: ErrorKind, cost: real, breaker: BreakerState): Attempt {
    Attempt(t.id, n, if e.Timeout? then TimedOut else Failure, Some(e), cost, breaker)
  }

  /** What one provider call comes to under its time limit. */
  datatype Called = Answered(usage: Usage, stream: Opened) | Gone(why: Abort) | Erred(error: ErrorKind)

  function CallResult(reply: Reply, limit: real): Called {
    if reply.took >= limit then Erred(Timeout)
    else match reply.answer
      case Arrives(usage, stream) => Answered(usage, stream)
      case Fails(e) => Erred(e)
      case Leaves => Gone(ClientLeft)
      case Crashes => Gone(AdapterCrashed)
  }

  function AfterError(w: World, t: Target, e: ErrorKind, recording: real): World {
    var noted := if CountsAgainstBreaker(e) then Noted(w, t.id, FailedAt(w.now)) else w;
    noted.(now := w.now + recording)
  }

  /** How one attempt leaves the walk. */
  datatype Step =
    | OutOfTime
    | Answers(usage: Usage, stream: Opened, recording: real, breaker: BreakerState)
    | CutOff(why: Abort)
    | Fatal(record: Attempt)
    | Again(record: Attempt)
    | MoveOn(record: Attempt)

  datatype Tried = Tried(step: Step, world: World)

  function Try(r: Request, script: Script, t: Target, n: nat, w: World): Tried
    requires n >= 1
  {
    if r.deadline - w.now <= 0.0 then Tried(OutOfTime, w)
    else
      var reply := ReplyTo(script, w.calls);
      var limit := Min(t.timeout, r.deadline - w.now);
      var ended := w.(now := w.now + Min(reply.took, limit), calls := w.calls + 1);
      var breaker := StateAt(r.breakers, BreakerOf(r, w, t.id), w.now);
      match CallResult(reply, limit)
      case Answered(usage, stream) => Tried(Answers(usage, stream, reply.recording, breaker), ended)
      case Gone(why) => Tried(CutOff(why), ended)
      case Erred(e) => OnError(r, t, n, e, reply, breaker, ended)
  }

  /** A failed attempt: the record, the breaker update and the retry decision. */
  function OnError(r: Request, t: Target, n: nat, e: ErrorKind, reply: Reply, breaker: BreakerState, w: World): Tried
    requires n >= 1
  {
    var record := FailRecord(t, n, e, 0.0, breaker);
    var after := AfterError(w, t, e, reply.recording);
    if e.BadRequest? then Tried(Fatal(record), after)
    else if ShouldRetry(r, after, t, n, e, reply.jitter) then
      Tried(Again(record), after.(now := after.now + Delay(r, n, e, reply.jitter)))
    else Tried(MoveOn(record), after)
  }

  /** The walk from target k on.  n = 0: target k has yet to be admitted; n >= 1: attempt n at
      target k is next. */
  function Walk(r: Request, script: Script, k: nat, n: nat, w: World): (report: Report)
    requires k <= |r.targets| && (n > 0 ==> k < |r.targets| && n <= r.targets[k].maxAttempts)
    requires forall t :: t in r.targets ==> SaneTarget(t)
    ensures report.result.Arrived? ==> report.result.k < |r.targets|
    decreases |r.targets| - k, if n == 0 then 1 else 0, if n == 0 then 0 else r.targets[k].maxAttempts - n
  {
    if k == |r.targets| then Report(Exhausted, [], w)
    else
      var t := r.targets[k];
      if n == 0 then
        assert SaneTarget(t);
        var skip := SkipFor(r, w, t);
        if skip.Some? then Prefixed([SkipRecord(t, skip.value)], Walk(r, script, k + 1, 0, AfterAdmission(r, w, t)))
        else Walk(r, script, k, 1, AfterAdmission(r, w, t))
      else
        var tried := Try(r, script, t, n, w);
        match tried.step
        case OutOfTime => Report(Refused(DeadlineExceeded, k), [], tried.world)
        case Answers(usage, stream, recording, breaker) =>
          Report(Arrived(k, n, usage, stream, recording, breaker), [], tried.world)
        case CutOff(why) => Report(Cut(k, why), [], tried.world)
        case Fatal(record) => Report(Refused(BadRequestCode, k), [record], tried.world)
        case Again(record) => Prefixed([record], Walk(r, script, k, n + 1, tried.world))
        case MoveOn(record) => Prefixed([record], Walk(r, script, k + 1, 0, tried.world))
  }

  /** What is left of a walk after an attempt. */
  function AfterStep(r: Request, script: Script, k: nat, n: nat, step: Step, after: World): Report
    requires k < |r.targets| && 1 <= n <= r.targets[k].maxAttempts
    requires step.Again? ==> n < r.targets[k].maxAttempts
    requires forall t :: t in r.targets ==> SaneTarget(t)
  {
    match step
    case OutOfTime => Report(Refused(DeadlineExceeded, k), [], after)
    case Answers(usage, stream, recording, breaker) => Report(Arrived(k, n, usage, stream, recording, breaker), [], after)
    case CutOff(why) => Report(Cut(k, why), [], after)
    case Fatal(record) => Report(Refused(BadRequestCode, k), [record], after)
    case Again(record) => Prefixed([record], Walk(r, script, k, n + 1, after))
    case MoveOn(record) => Prefixed([record], Walk(r, script, k + 1, 0, after))
  }

  /** The record an attempt leaves, if any. */
  function RecordOf(step: Step): seq<Attempt> {
    if step.Fatal? || step.Again? || step.MoveOn? then [step.record] else []
  }

  predicate EndsRequest(step: Step) {
    !step.Again? && !step.MoveOn?
  }

  function OpeningOf(k: nat, n: nat, step: Step): Opening
    requires EndsRequest(step)
  {
    match step
    case OutOfTime => Refused(DeadlineExceeded, k)
    case Answers(usage, stream, recording, breaker) => Arrived(k, n, usage, stream, recording, breaker)
    case CutOff(why) => Cut(k, why)
    case Fatal(_) => Refused(BadRequestCode, k)
  }

  /** A walk that has left these records, the last of them by this step. */
  function Onward(records: seq<Attempt>, r: Request, script: Script, k: nat, n: nat, step: Step, after: World): Report
    requires k < |r.targets| && 1 <= n <= r.targets[k].maxAttempts
    requires step.Again? ==> n < r.targets[k].maxAttempts
    requires forall t :: t in r.targets ==> SaneTarget(t)
  {
    if EndsRequest(step) then Report(OpeningOf(k, n, step), records, after)
    else Prefixed(records, if step.Again? then Walk(r, script, k, n + 1, after) else Walk(r, script, k + 1, 0, after))
  }

  lemma PrefixedStep(log: seq<Attempt>, r: Request, script: Script, k: nat, n: nat, step: Step, after: World)
    requires k < |r.targets| && 1 <= n <= r.targets[k].maxAttempts
    requires step.Again? ==> n < r.targets[k].maxAttempts
    requires forall t :: t in r.targets ==> SaneTarget(t)
    ensures Prefixed(log, AfterStep(r, script, k, n, step, after)) ==
      Onward(log + RecordOf(step), r, script, k, n, step, after)
  {
    if step.Again? {
      PrefixedTwice(log, step.record, Walk(r, script, k, n + 1, after));
    } else if step.MoveOn? {
      PrefixedTwice(log, step.record, Walk(r, script, k + 1, 0, after));
    }
  }

  lemma WalkAfterTry(r: Request, script: Script, k: nat, n: nat, w: World, step: Step, after: World)
    requires k < |r.targets| && 1 <= n <= r.targets[k].maxAttempts
    requires forall t :: t in r.targets ==> SaneTarget(t)
    requires Tried(step, after) == Try(r, script, r.targets[k], n, w)
    ensures step.Again? ==> n < r.targets[k].maxAttempts
    ensures Walk(r, script, k, n, w) == AfterStep(r, script, k, n, step, after)
  {
  }

  /** The walk when it comes to a target. */
  lemma WalkAtTarget(r: Request, script: Script, k: nat, w: World)
    requires k < |r.targets| && forall t :: t in r.targets ==> SaneTarget(t)
    ensures var t := r.targets[k];
      var skip, admitted := SkipFor(r, w, t), AfterAdmission(r, w, t);
      && t.maxAttempts >= 1
      && Walk(r, script, k, 0, w) ==
           if skip.Some? then Prefixed([SkipRecord(t, skip.value)], Walk(r, script, k + 1, 0, admitted))
           else Walk(r, script, k, 1, admitted)
  {
    assert SaneTarget(r.targets[k]);
  }

  // ------------------------------------------------------------------ specification: chat

  datatype ChatResult = Served(k: nat, usage: Usage) | Raised(code: Code) | CutShort(why: Abort)

  datatype ChatReport = ChatReport(result: ChatResult, log: seq<Attempt>, world: World)

  predicate AllSkipped(log: seq<Attempt>) {
    forall a :: a in log ==> a.outcome.Skipped?
  }

  function ExhaustedCode(log: seq<Attempt>): Code {
    if AllSkipped(log) then NoAvailableProvider else ProviderUnavailable
  }

  function SuccessRecord(t: Target, n: nat, usage: Usage, breaker: BreakerState): Attempt {
    Attempt(t.id, n, Success, None, Cost(t, usage), breaker)
  }

  function AfterSuccess(w: World, t: Target, recording: real): World {
    Noted(w, t.id, Succeeded).(now := w.now + recording)
  }

  function ChatFrom(r: Request, opening: Report): ChatReport
    requires opening.result.Arrived? ==> opening.result.k < |r.targets|
  {
    match opening.result
    case Arrived(k, n, usage, _, recording, breaker) =>
      var t := r.targets[k];
      ChatReport(Served(k, usage), opening.log + [SuccessRecord(t, n, usage, breaker)], AfterSuccess(opening.world, t, recording))
    case Refused(code, _) => ChatReport(Raised(code), opening.log, opening.world)
    case Exhausted => ChatReport(Raised(ExhaustedCode(opening.log)), opening.log, opening.world)
    case Cut(_, why) => ChatReport(CutShort(why), opening.log, opening.world)
  }

  // ------------------------------------------------------------------ specification: streaming

  datatype Event =
    | Started(model: ModelId, fallbackUsed: bool)
    | Text(text: string)
    | Completed(model: ModelId, usage: Usage, cost: real, attempts: seq<Attempt>)
    | Failed(code: Code, attempts: seq<Attempt>)
    | FailedMidStream(attempts: seq<Attempt>)

  datatype Ending = Completes(usage: Usage) | Breaks(error: ErrorKind) | Quits(why: Abort)

  /** What the client sees of a stream once its first item has arrived at time `now`. */
  datatype Played = Played(texts: seq<string>, ending: Ending, now: real)

  function Play(s: Stream, now: real, deadline: real, idleLimit: real): Played {
    match s
    case End(usage) => Played([], Completes(usage), now)
    case Broken(e) => Played([], Breaks(e), now)
    case Stopped => Played([], Breaks(BadResponse), now)
    case Abandoned => Played([], Quits(ClientLeft), now)
    case Crashed => Played([], Quits(AdapterCrashed), now)
    case Delta(text, held, took, next) =>
      var asked := now + held;
      var idle := Min(idleLimit, deadline - asked);
      if idle <= 0.0 then Played([text], Breaks(Timeout), asked)
      else if took >= idle then Played([text], Breaks(Timeout), asked + idle)
      else
        var rest := Play(next, asked + took, deadline, idleLimit);
        rest.(texts := [text] + rest.texts)
  }

  function Deltas(texts: seq<string>): seq<Event> {
    seq(|texts|, i requires 0 <= i < |texts| => Text(texts[i]))
  }

  /** `cut` says why the events stop short, if they do. */
  datatype StreamReport = StreamReport(events: seq<Event>, cut: Option<Abort>, world: World)

  function TotalLength(texts: seq<string>): nat {
    if texts == [] then 0 else TotalLength(texts[..|texts| - 1]) + |texts[|texts| - 1]|
  }

  function EstimateTokens(length: nat): nat {
    (length + 3) / 4
  }

  /** Usage charged for a stream that did not complete. */
  function PartialUsage(promptTokens: nat, texts: seq<string>): Usage {
    Usage(promptTokens, EstimateTokens(TotalLength(texts)))
  }

  function StreamFrom(r: Request, opening: Report, idleLimit: real, promptTokens: nat): StreamReport
    requires opening.result.Arrived? ==> opening.result.k < |r.targets|
  {
    match opening.result
    case Refused(code, _) => StreamReport([Failed(code, opening.log)], None, opening.world)
    case Exhausted => StreamReport([Failed(ExhaustedCode(opening.log), opening.log)], None, opening.world)
    case Cut(_, why) => StreamReport([], Some(why), opening.world)
    case Arrived(k, n, _, stream, recording, breaker) =>
      var t := r.targets[k];
      var played := Play(stream, opening.world.now, r.deadline, idleLimit);
      var w := opening.world.(now := played.now);
      var shown := [Started(t.id, opening.log != [])] + Deltas(played.texts);
      match played.ending
      case Quits(why) => StreamReport(shown, Some(why), w)
      case Completes(usage) =>
        StreamReport(shown + [Completed(t.id, usage, Cost(t, usage), opening.log + [SuccessRecord(t, n, usage, breaker)])],
                     None, AfterSuccess(w, t, recording))
      case Breaks(e) =>
        var record := FailRecord(t, n, e, Cost(t, PartialUsage(promptTokens, played.texts)), breaker);
        StreamReport(shown + [FailedMidStream(opening.log + [record])], None, AfterError(w, t, e, recording))
  }

  // ------------------------------------------------------------------ the gateway

  class LLMGateway {
    const config: Config
    const backoffBase: real
    const backoffCap: real
    var now: real
    var calls: nat
    var breakers: map<ModelId, Breaker>
    ghost var history: map<ModelId, seq<Op>>

    constructor (config: Config, backoffBase: real, backoffCap: real, now: real)
      ensures Valid() && Current() == World(now, 0, map[])
      ensures this.config == config && this.backoffBase == backoffBase && this.backoffCap == backoffCap
    {
      this.config, this.backoffBase, this.backoffCap, this.now := config, backoffBase, backoffCap, now;
      calls, breakers, history := 0, map[], map[];
    }

    ghost function Current(): World
      reads this
    {
      World(now, calls, history)
    }

    /** `BreakerRegistry.get`: a model's breaker, new on first use. */
    function Registered(id: ModelId): Breaker
      reads this`breakers
    {
      if id in breakers then breakers[id] else NEW
    }

    /** Every breaker is what its history makes it. */
    ghost predicate Valid()
      reads this`breakers, this`history
    {
      forall id :: Registered(id) == Replay(config, OpsOf(history, id))
    }

    method Note(id: ModelId, op: Op)
      requires Valid()
      modifies this`breakers, this`history
      ensures Valid() && Current() == Noted(old(Current()), id, op)
    {
      ghost var before := OpsOf(history, id);
      breakers := breakers[id := Apply(config, Registered(id), op)];
      history := history[id := before + [op]];
      assert (before + [op])[..|before|] == before;
      assert forall other :: other != id ==> OpsOf(history, other) == OpsOf(old(history), other);
    }

    /** `_admit`, returning the reason to skip the target. */
    method Admit(r: Request, t: Target) returns (skip: Option<SkipReason>)
      requires Valid() && r.breakers == config
      modifies this`breakers, this`history
      ensures Valid()
      ensures skip == SkipFor(r, old(Current()), t)
      ensures Current() == AfterAdmission(r, old(Current()), t)
    {
      if t.id in r.blocked {
        return Some(EgressNotPermitted);
      }
      if !t.enabled {
        return Some(ProviderDisabled);
      }
      var granted := Admits(config, Registered(t.id), now);
      Note(t.id, Asked(now));
      return if granted then None else Some(CircuitOpen);
    }

    /** `_should_retry`, sleeping out the delay when it says yes. */
    method RetryAfterDelay(r: Request, t: Target, n: nat, e: ErrorKind, jitter: real) returns (again: bool)
      requires Valid() && r.breakers == config && n >= 1
      modifies this`now
      ensures Valid()
      ensures again <==> ShouldRetry(r, old(Current()), t, n, e, jitter)
      ensures Current() == old(Current()).(now := old(now) + if again then Delay(r, n, e, jitter) else 0.0)
    {
      if !Retryable(e) || n >= t.maxAttempts {
        return false;
      }
      if !StateAt(config, Registered(t.id), now).Closed? {
        return false;
      }
      var delay := Delay(r, n, e, jitter);
      if now + delay >= r.deadline {
        return false;
      }
      now := now + delay;
      return true;
    }

    /** The failed-attempt path both loops share: update the breaker, write the usage record. */
    method RecordError(t: Target, e: ErrorKind, recording: real)
      requires Valid()
      modifies this`breakers, this`history, this`now
      ensures Valid() && Current() == AfterError(old(Current()), t, e, recording)
    {
      if CountsAgainstBreaker(e) {
        Note(t.id, FailedAt(now));
      }
      now := now + recording;
    }

    method HandleError(r: Request, t: Target, n: nat, e: ErrorKind, reply: Reply, breaker: BreakerState) returns (step: Step)
      requires Valid() && r.breakers == config && n >= 1
      modifies this`breakers, this`history, this`now
      ensures Valid()
      ensures Tried(step, Current()) == OnError(r, t, n, e, reply, breaker, old(Current()))
    {
      var record := FailRecord(t, n, e, 0.0, breaker);
      RecordError(t, e, reply.recording);
      if e.BadRequest? {
        return Fatal(record);
      }
      var again := RetryAfterDelay(r, t, n, e, reply.jitter);
      return if again then Again(record) else MoveOn(record);
    }

    /** One attempt: the provider call under its time limit. */
    method TryOnce(r: Request, script: Script, t: Target, n: nat) returns (step: Step)
      requires Valid() && r.breakers == config && n >= 1
      modifies this
      ensures Valid()
      ensures Tried(step, Current()) == Try(r, script, t, n, old(Current()))
    {
      var remaining := r.deadline - now;
      if remaining <= 0.0 {
        return OutOfTime;
      }
      var limit := Min(t.timeout, remaining);
      var breaker := StateAt(config, Registered(t.id), now);
      var reply := ReplyTo(script, calls);
      calls := calls + 1;
      now := now + Min(reply.took, limit);
      match CallResult(reply, limit) {
        case Gone(why) =>
          return CutOff(why);
        case Answered(usage, stream) =>
          return Answers(usage, stream, reply.recording, breaker);
        case Erred(e) =>
          step := HandleError(r, t, n, e, reply, breaker);
      }
    }

    /** One attempt: `records` are those of the walk `whole` so far, and `more` with its own. */
    method AttemptAt(r: Request, script: Script, k: nat, n: nat, records: seq<Attempt>, ghost whole: Report)
      returns (step: Step, more: seq<Attempt>)
      requires Valid() && r.breakers == config && k < |r.targets| && 1 <= n <= r.targets[k].maxAttempts
      requires forall t :: t in r.targets ==> SaneTarget(t)
      requires whole == Prefixed(records, Walk(r, script, k, n, Current()))
      modifies this
      ensures Valid()
      ensures step.Again? ==> n < r.targets[k].maxAttempts
      ensures whole == Onward(more, r, script, k, n, step, Current())
    {
      ghost var before := Current();
      step := TryOnce(r, script, r.targets[k], n);
      WalkAfterTry(r, script, k, n, before, step, Current());
      PrefixedStep(records, r, script, k, n, step, Current());
      more := records + RecordOf(step);
    }

    /** The inner loop: attempts at target k until one answers or ends the request
        (`opening`), or the walk moves on (None). */
    method TryTarget(r: Request, script: Script, k: nat) returns (opening: Option<Opening>, records: seq<Attempt>)
      requires Valid() && r.breakers == config && k < |r.targets|
      requires forall t :: t in r.targets ==> SaneTarget(t)
      requires r.targets[k].maxAttempts >= 1
      modifies this
      ensures Valid()
      ensures Walk(r, script, k, 1, old(Current())) ==
        if opening.Some? then Report(opening.value, records, Current())
        else Prefixed(records, Walk(r, script, k + 1, 0, Current()))
    {
      ghost var whole := Walk(r, script, k, 1, Current());
      assert whole == Prefixed([], whole);
      var n, step := 1, OutOfTime;
      step, records := AttemptAt(r, script, k, n, [], whole);
      while step.Again?
        invariant 1 <= n <= r.targets[k].maxAttempts && (step.Again? ==> n < r.targets[k].maxAttempts)
        invariant Valid()
        invariant whole == Onward(records, r, script, k, n, step, Current())
        decreases r.targets[k].maxAttempts - n
      {
        n := n + 1;
        step, records := AttemptAt(r, script, k, n, records, whole);
      }
      opening := if step.MoveOn? then None else Some(OpeningOf(k, n, step));
    }

    /** The outer loop over targets, the same in `_run` and `stream_chat`. */
    method Reach(r: Request, script: Script) returns (opening: Opening, attempts: seq<Attempt>)
      requires Valid() && r.breakers == config
      requires forall t :: t in r.targets ==> SaneTarget(t)
      modifies this
      ensures Valid()
      ensures Report(opening, attempts, Current()) == Walk(r, script, 0, 0, old(Current()))
    {
      ghost var whole := Walk(r, script, 0, 0, Current());
      attempts := [];
      for k := 0 to |r.targets|
        invariant Valid()
        invariant whole == Prefixed(attempts, Walk(r, script, k, 0, Current()))
      {
        var t := r.targets[k];
        var skip := Admit(r, t);
        if skip.Some? {
          PrefixedTwice(attempts, SkipRecord(t, skip.value), Walk(r, script, k + 1, 0, Current()));
          attempts := attempts + [SkipRecord(t, skip.value)];
          continue;
        }
        assert SaneTarget(t);
        var ended, records := TryTarget(r, script, k);
        attempts := attempts + records;
        if ended.Some? {
          return ended.value, attempts;
        }
      }
      opening := Exhausted;
    }

    /** `chat`. */
    method Chat(r: Request, script: Script) returns (result: ChatResult, attempts: seq<Attempt>)
      requires Valid() && r.breakers == config
      requires forall t :: t in r.targets ==> SaneTarget(t)
      modifies this
      ensures Valid()
      ensures ChatReport(result, attempts, Current()) == ChatFrom(r, Walk(r, script, 0, 0, old(Current())))
    {
      var opening;
      opening, attempts := Reach(r, script);
      match opening {
        case Refused(code, _) =>
          result := Raised(code);
        case Cut(_, why) =>
          result := CutShort(why);
        case Exhausted =>
          result := Raised(ExhaustedCode(attempts));
        case Arrived(k, n, usage, _, recording, breaker) =>
          var t := r.targets[k];
          attempts := attempts + [SuccessRecord(t, n, usage, breaker)];
          Note(t.id, Succeeded);
          now := now + recording;
          result := Served(k, usage);
      }
    }

    /** The relay loop of `stream_chat`: items go to the client until the stream completes,
        breaks, stalls, or the client leaves. */
    method Relay(stream: Stream, deadline: real, idleLimit: real) returns (texts: seq<string>, ending: Ending)
      requires Valid()
      modifies this`now
      ensures Played(texts, ending, now) == Play(stream, old(now), deadline, idleLimit)
    {
      var item := stream;
      texts := [];
      while item.Delta?
        invariant Play(stream, old(now), deadline, idleLimit) ==
          (var rest := Play(item, now, deadline, idleLimit); rest.(texts := texts + rest.texts))
        decreases item
      {
        ghost var shown := texts;
        texts := texts + [item.text];
        assert forall rest: seq<string> :: shown + ([item.text] + rest) == texts + rest;
        now := now + item.held;
        var idle := Min(idleLimit, deadline - now);
        if idle <= 0.0 {
          return texts, Breaks(Timeout);
        }
        if item.took >= idle {
          now := now + idle;
          return texts, Breaks(Timeout);
        }
        now := now + item.took;
        item := item.next;
      }
      match item {
        case End(usage) => ending := Completes(usage);
        case Broken(e) => ending := Breaks(e);
        case Stopped => ending := Breaks(BadResponse);
        case Abandoned => ending := Quits(ClientLeft);
        case Crashed => ending := Quits(AdapterCrashed);
      }
    }

    /** `stream_chat`, yielding its events in order. */
    method StreamChat(r: Request, script: Script, idleLimit: real, promptTokens: nat)
      returns (events: seq<Event>, cut: Option<Abort>)
      requires Valid() && r.breakers == config
      requires forall t :: t in r.targets ==> SaneTarget(t)
      modifies this
      ensures Valid()
      ensures StreamReport(events, cut, Current()) ==
        StreamFrom(r, Walk(r, script, 0, 0, old(Current())), idleLimit, promptTokens)
    {
      var opening, attempts := Reach(r, script);
      match opening {
        case Refused(code, _) =>
          return [Failed(code, attempts)], None;
        case Cut(_, why) =>
          return [], Some(why);
        case Exhausted =>
          return [Failed(ExhaustedCode(attempts), attempts)], None;
        case Arrived(k, n, _, stream, recording, breaker) =>
          var t := r.targets[k];
          events := [Started(t.id, attempts != [])];
          var texts, ending := Relay(stream, r.deadline, idleLimit);
          events := events + Deltas(texts);
          match ending {
            case Quits(why) =>
              cut := Some(why);
            case Completes(usage) =>
              var record := SuccessRecord(t, n, usage, breaker);
              Note(t.id, Succeeded);
              now := now + recording;
              events := events + [Completed(t.id, usage, record.cost, attempts + [record])];
              cut := None;
            case Breaks(e) =>
              var record := FailRecord(t, n, e, Cost(t, PartialUsage(promptTokens, texts)), breaker);
              RecordError(t, e, recording);
              events := events + [FailedMidStream(attempts + [record])];
              cut := None;
          }
      }
    }
  }
}
