/** How a stream ends, from the provider's items and the client's pace alone. */
module StreamProperties {
  import opened Common
  import opened Resilience
  import opened Gateway
  import opened GatewayProperties
  import opened GatewayReference

  // ------------------------------------------------------------------ the stream itself

  /** What comes after the last delta. */
  function LastItem(s: Stream): Stream {
    if s.Delta? then LastItem(s.next) else s
  }

  /** The longest wait for the next item, once a delta has been held until `asked`. */
  function Patience(asked: real, deadline: real, idleLimit: real): real {
    Least(idleLimit, deadline - asked)
  }

  /** The item after a delta comes too late. */
  predicate TooLate(took: real, asked: real, deadline: real, idleLimit: real) {
    Patience(asked, deadline, idleLimit) <= 0.0 || took >= Patience(asked, deadline, idleLimit)
  }

  /** How many deltas are shown before an item comes too late; None if none does. */
  function LateAfter(s: Stream, now: real, deadline: real, idleLimit: real): Option<nat> {
    if !s.Delta? then None
    else
      var asked := now + s.held;
      if TooLate(s.took, asked, deadline, idleLimit) then Some(1)
      else
        var later := LateAfter(s.next, asked + s.took, deadline, idleLimit);
        if later.Some? then Some(later.value + 1) else None
  }

  /** When it is over. */
  function OverAt(s: Stream, now: real, deadline: real, idleLimit: real): real {
    if !s.Delta? then now
    else
      var asked := now + s.held;
      if TooLate(s.took, asked, deadline, idleLimit) then
        if Patience(asked, deadline, idleLimit) <= 0.0 then asked else asked + Patience(asked, deadline, idleLimit)
      else OverAt(s.next, asked + s.took, deadline, idleLimit)
  }

  /** The error a stream breaks with: a timeout if an item is too late, what the provider reports, or
      a bad response if it just stops. */
  function BreaksWith(s: Stream, now: real, deadline: real, idleLimit: real): Option<ErrorKind> {
    if LateAfter(s, now, deadline, idleLimit).Some? then Some(Timeout)
    else match LastItem(s)
      case Broken(e) => Some(e)
      case Stopped => Some(BadResponse)
      case _ => None
  }

  lemma {:induction false} LateIsWithin(s: Stream, now: real, deadline: real, idleLimit: real)
    ensures var late := LateAfter(s, now, deadline, idleLimit); late.Some? ==> 1 <= late.value <= |TextsOf(s)|
  {
    if s.Delta? {
      LateIsWithin(s.next, now + s.held + s.took, deadline, idleLimit);
    }
  }

  /** The texts shown: all of them, or those before the late item. */
  function ShownTexts(s: Stream, now: real, deadline: real, idleLimit: real): seq<string> {
    var late := LateAfter(s, now, deadline, idleLimit);
    LateIsWithin(s, now, deadline, idleLimit);
    if late.Some? then TextsOf(s)[..late.value] else TextsOf(s)
  }

  /** Playing a stream shows those texts, ends then, and ends as its items and its pace say. */
  lemma {:induction false} PlayFollowsTheStream(s: Stream, now: real, deadline: real, idleLimit: real)
    ensures var p, e := Play(s, now, deadline, idleLimit), BreaksWith(s, now, deadline, idleLimit);
      && p.texts == ShownTexts(s, now, deadline, idleLimit) && p.now == OverAt(s, now, deadline, idleLimit)
      && (e.Some? ==> p.ending == Breaks(e.value))
      && (e.None? ==> match LastItem(s)
           case End(usage) => p.ending == Completes(usage)
           case Abandoned => p.ending == Quits(ClientLeft)
           case _ => p.ending == Quits(AdapterCrashed))
  {
    if s.Delta? {
      var asked := now + s.held;
      if !TooLate(s.took, asked, deadline, idleLimit) {
        PlayFollowsTheStream(s.next, asked + s.took, deadline, idleLimit);
        LateIsWithin(s.next, asked + s.took, deadline, idleLimit);
      }
    }
  }

  // ------------------------------------------------------------------ partial usage

  lemma {:induction false} LengthAddsUp(a: seq<string>, b: seq<string>)
    ensures TotalLength(a + b) == TotalLength(a) + TotalLength(b)
  {
    if b == [] {
      assert a + b == a;
    } else {
      var init := b[..|b| - 1];
      LengthAddsUp(a, init);
      assert (a + b)[..|a + b| - 1] == a + init;
    }
  }

  /** A stream that broke is charged its prompt and a token for every four characters shown, rounded
      up. */
  lemma PartialIsEstimated(promptTokens: nat, texts: seq<string>)
    ensures var usage := PartialUsage(promptTokens, texts);
      usage.prompt == promptTokens && 4 * usage.completion - 4 < TotalLength(texts) <= 4 * usage.completion
  {
  }

  // ------------------------------------------------------------------ the events

  /** The events up to the last: the start and the deltas. */
  function Opening(model: ModelId, fallbackUsed: bool, texts: seq<string>): seq<Event> {
    [Started(model, fallbackUsed)] + Deltas(texts)
  }

  /** What an answered stream comes to. */
  ghost predicate EndsRight(r: Request, rep: Report, s: StreamReport, idleLimit: real, promptTokens: nat)
    requires rep.result.Arrived? && rep.result.k < |r.targets|
  {
    var t, stream, start := r.targets[rep.result.k], rep.result.stream, rep.world.now;
    var texts := ShownTexts(stream, start, r.deadline, idleLimit);
    var e := BreaksWith(stream, start, r.deadline, idleLimit);
    var over := OverAt(stream, start, r.deadline, idleLimit);
    var shown := Opening(t.id, rep.log != [], texts);
    if e.Some? then
      && s.cut.None? && |s.events| == |shown| + 1 && s.events[..|shown|] == shown
      && s.events[|shown|].FailedMidStream? && BrokenRecord(r, rep, s.events[|shown|].attempts, e.value, promptTokens, texts)
      && OpsOf(s.world.history, t.id) == OpsOf(rep.world.history, t.id) + (if IsTold(e.value) then [FailedAt(over)] else [])
    else if LastItem(stream).End? then
      && s.cut.None? && |s.events| == |shown| + 1 && s.events[..|shown|] == shown
      && CompletedRight(r, rep, s.events[|shown|], LastItem(stream).usage)
      && OpsOf(s.world.history, t.id) == OpsOf(rep.world.history, t.id) + [Succeeded]
    else
      && s.cut == Some(if LastItem(stream).Abandoned? then ClientLeft else AdapterCrashed)
      && s.events == shown && s.world.history == rep.world.history
  }

  /** The log of a broken stream: what came before and a failed attempt, charged for what it showed. */
  predicate BrokenRecord(r: Request, rep: Report, log: seq<Attempt>, e: ErrorKind, promptTokens: nat, texts: seq<string>)
    requires rep.result.Arrived? && rep.result.k < |r.targets|
  {
    var t := r.targets[rep.result.k];
    && log != [] && log[..|log| - 1] == rep.log
    && var last := log[|log| - 1];
      && last == Attempt(t.id, rep.result.n, if e == Timeout then TimedOut else Failure, Some(e), last.cost, rep.result.breaker)
      && IsCost(last.cost, t, PartialUsage(promptTokens, texts))
  }

  /** The completion: the stream's own usage at its model's prices, and the log with the success. */
  predicate CompletedRight(r: Request, rep: Report, event: Event, usage: Usage)
    requires rep.result.Arrived? && rep.result.k < |r.targets|
  {
    var t := r.targets[rep.result.k];
    && event.Completed? && event.model == t.id && event.usage == usage && IsCost(event.cost, t, usage)
    && event.attempts == rep.log + [Attempt(t.id, rep.result.n, Success, None, event.cost, rep.result.breaker)]
  }

  lemma StreamFromEndsRight(r: Request, rep: Report, idleLimit: real, promptTokens: nat)
    requires rep.result.Arrived? && rep.result.k < |r.targets|
    ensures EndsRight(r, rep, StreamFrom(r, rep, idleLimit, promptTokens), idleLimit, promptTokens)
  {
    var t := r.targets[rep.result.k];
    PlayFollowsTheStream(rep.result.stream, rep.world.now, r.deadline, idleLimit);
    var played := Play(rep.result.stream, rep.world.now, r.deadline, idleLimit);
    CostIsPriced(t, PartialUsage(promptTokens, played.texts));
    if played.ending.Completes? {
      CostIsPriced(t, played.ending.usage);
    }
  }

  /** For every script, a stream that answered completes, with its usage, its cost and a success for
      the breaker, exactly if it ends properly and no item comes too late; it fails midway, and its
      breaker is told if the error counts, exactly if an item is too late, the provider reports an
      error, or it stops; and it is cut short, its breaker told nothing, exactly if the client
      leaves or the adapter crashes. */
  lemma StreamsEndRight(r: Request, script: Script, w: World, idleLimit: real, promptTokens: nat)
    requires Sane(r) && Walk(r, script, 0, 0, w).result.Arrived?
    ensures EndsRight(r, Walk(r, script, 0, 0, w), RunStream(r, script, w, idleLimit, promptTokens), idleLimit, promptTokens)
  {
    StreamFromEndsRight(r, Walk(r, script, 0, 0, w), idleLimit, promptTokens);
  }

  /** A stream that no provider answered is one failure with the walk's log, or cut short. */
  lemma UnansweredStreamsFail(r: Request, script: Script, w: World, idleLimit: real, promptTokens: nat)
    requires Sane(r) && !Walk(r, script, 0, 0, w).result.Arrived?
    ensures var rep, s := Walk(r, script, 0, 0, w), RunStream(r, script, w, idleLimit, promptTokens);
      && s.world == rep.world
      && match rep.result
         case Refused(code, _) => s.cut == None && s.events == [Failed(code, rep.log)]
         case Cut(_, why) => s.cut == Some(why) && s.events == []
         case _ =>
           s.cut == None && s.events ==
           [Failed(if forall a :: a in rep.log ==> a.outcome.Skipped? then NoAvailableProvider else ProviderUnavailable, rep.log)]
  {
  }
}
