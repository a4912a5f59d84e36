/** What a whole request leaves of a half-open probe: when it is still out afterwards, for good. */
module ProbeProperties {
  import opened Common
  import opened Resilience
  import opened Gateway
  import opened GatewayProperties

  /** Some attempt at the model failed with an error that the breaker is not told of. */
  predicate HasUntoldError(log: seq<Attempt>, id: ModelId) {
    exists a :: a in log && a.model == id && a.error.Some? && !CountsAgainstBreaker(a.error.value)
  }

  /** The walk ends at target k with no record of the attempt there: the client left during it, its
      adapter crashed, or the time ran out before it. */
  predicate AbandonedAt(o: Opening, k: nat) {
    (o.Cut? && o.k == k) || o == Refused(DeadlineExceeded, k)
  }

  predicate ArrivedAt(o: Opening, k: nat) {
    o.Arrived? && o.k == k
  }

  predicate MentionsNot(log: seq<Attempt>, id: ModelId) {
    forall a :: a in log ==> a.model != id
  }

  /** Nothing the report has done touches the model, and it has ended past target k, if at one. */
  predicate Untouched(rep: Report, w: World, id: ModelId, k: nat) {
    && OpsOf(rep.world.history, id) == OpsOf(w.history, id) && MentionsNot(rep.log, id)
    && (rep.result.Exhausted? || rep.result.k >= k)
  }

  lemma AdmissionOfOther(r: Request, w: World, t: Target, id: ModelId)
    requires t.id != id
    ensures OpsOf(AfterAdmission(r, w, t).history, id) == OpsOf(w.history, id)
  {
  }

  lemma TryOfOther(r: Request, script: Script, t: Target, n: nat, w: World, id: ModelId)
    requires n >= 1 && t.id != id
    ensures var tried := Try(r, script, t, n, w);
      && OpsOf(tried.world.history, id) == OpsOf(w.history, id)
      && MentionsNot(RecordOf(tried.step), id)
  {
  }

  lemma {:induction false} OthersUntouched(
      r: Request, script: Script, k: nat, n: nat, w: World, id: ModelId, rep: Report)
    requires forall t :: t in r.targets ==> SaneTarget(t)
    requires k <= |r.targets| && (n > 0 ==> k < |r.targets| && n <= r.targets[k].maxAttempts)
    requires forall i :: k <= i < |r.targets| ==> r.targets[i].id != id
    requires rep == Walk(r, script, k, n, w)
    ensures Untouched(rep, w, id, k)
    decreases |r.targets| - k, if n == 0 then 1 else 0, if n == 0 then 0 else r.targets[k].maxAttempts - n
  {
    if k < |r.targets| {
      var t := r.targets[k];
      if n == 0 {
        var skip, admitted := SkipFor(r, w, t), AfterAdmission(r, w, t);
        WalkAtTarget(r, script, k, w);
        AdmissionOfOther(r, w, t, id);
        var rest := if skip.Some? then Walk(r, script, k + 1, 0, admitted) else Walk(r, script, k, 1, admitted);
        OthersUntouched(r, script, if skip.Some? then k + 1 else k, if skip.Some? then 0 else 1, admitted, id, rest);
      } else {
        var tried := Try(r, script, t, n, w);
        WalkAfterTry(r, script, k, n, w, tried.step, tried.world);
        TryOfOther(r, script, t, n, w, id);
        if tried.step.Again? || tried.step.MoveOn? {
          var k', n' := if tried.step.Again? then k else k + 1, if tried.step.Again? then n + 1 else 0;
          var rest := Walk(r, script, k', n', tried.world);
          OthersUntouched(r, script, k', n', tried.world, id, rest);
        }
      }
    }
  }

  // ------------------------------------------------------------------ at the probe's target

  /** The model's breaker has tripped and no probe of it is out. */
  ghost predicate Waiting(r: Request, w: World, id: ModelId) {
    Tripped(r.breakers, OpsOf(w.history, id)) && !ProbeOut(r.breakers, OpsOf(w.history, id))
  }

  /** What becomes of the probe of target j. */
  ghost predicate Fate(r: Request, j: nat, rep: Report)
    requires j < |r.targets|
  {
    var id := r.targets[j].id;
    && Tripped(r.breakers, OpsOf(rep.world.history, id))
    && (ProbeOut(r.breakers, OpsOf(rep.world.history, id)) <==>
          HasUntoldError(rep.log, id) || AbandonedAt(rep.result, j) || ArrivedAt(rep.result, j))
    && (ArrivedAt(rep.result, j) ==> !HasUntoldError(rep.log, id))
  }

  lemma PrependOther(r: Request, j: nat, a: Attempt, rest: Report)
    requires j < |r.targets| && Fate(r, j, rest)
    requires a.model != r.targets[j].id || a.error.None? || CountsAgainstBreaker(a.error.value)
    ensures Fate(r, j, Prefixed([a], rest))
  {
    var id := r.targets[j].id;
    assert HasUntoldError([a] + rest.log, id) <==> HasUntoldError(rest.log, id) by {
      if HasUntoldError(rest.log, id) {
        var b :| b in rest.log && b.model == id && b.error.Some? && !CountsAgainstBreaker(b.error.value);
        assert b in [a] + rest.log;
      }
    }
  }

  lemma AskedMore(cfg: Config, h: seq<Op>, at: real)
    ensures Tripped(cfg, h + [Asked(at)]) <==> Tripped(cfg, h)
    ensures ProbeOut(cfg, h + [Asked(at)]) <==>
      ProbeOut(cfg, h) || (Tripped(cfg, h) && at - LastFailure(h) >= cfg.cooldown)
  {
    assert (h + [Asked(at)])[..|h|] == h;
    ProbeOutStep(cfg, h, Asked(at));
  }

  lemma FailedMore(cfg: Config, h: seq<Op>, at: real)
    requires Tripped(cfg, h)
    ensures Tripped(cfg, h + [FailedAt(at)]) && !ProbeOut(cfg, h + [FailedAt(at)])
  {
    assert (h + [FailedAt(at)])[..|h|] == h;
    ProbeOutStep(cfg, h, FailedAt(at));
  }

  /** Admission at the target: a probe goes out exactly if the target is not skipped. */
  lemma AdmissionSendsProbe(r: Request, w: World, t: Target)
    requires Waiting(r, w, t.id)
    ensures var h := OpsOf(AfterAdmission(r, w, t).history, t.id);
      Tripped(r.breakers, h) && (ProbeOut(r.breakers, h) <==> SkipFor(r, w, t).None?)
  {
    AdmissionRule(r.breakers, OpsOf(w.history, t.id), w.now);
    AskedMore(r.breakers, OpsOf(w.history, t.id), w.now);
  }

  lemma ProbeError(r: Request, t: Target, e: ErrorKind, reply: Reply, breaker: BreakerState, w: World)
    requires Tripped(r.breakers, OpsOf(w.history, t.id)) && ProbeOut(r.breakers, OpsOf(w.history, t.id))
    ensures var tried := OnError(r, t, 1, e, reply, breaker, w);
      var h := OpsOf(tried.world.history, t.id);
      && (tried.step.MoveOn? || tried.step.Fatal?) && Tripped(r.breakers, h)
      && tried.step.record.model == t.id && tried.step.record.error == Some(e)
      && (ProbeOut(r.breakers, h) <==> !CountsAgainstBreaker(e))
  {
    var h := OpsOf(w.history, t.id);
    FailedMore(r.breakers, h, w.now);
    var after := AfterError(w, t, e, reply.recording);
    AdmissionRule(r.breakers, OpsOf(after.history, t.id), after.now);
  }

  /** The probe's one attempt is over: it is still out if the breaker was not told of its error, or
      if no record says how it ended. */
  ghost predicate Settles(r: Request, id: ModelId, tried: Tried) {
    var h := OpsOf(tried.world.history, id);
    && !tried.step.Again? && Tripped(r.breakers, h)
    && (ProbeOut(r.breakers, h) <==>
          HasUntoldError(RecordOf(tried.step), id) || (EndsRequest(tried.step) && !tried.step.Fatal?))
    && (tried.step.MoveOn? || tried.step.Fatal? ==> tried.step.record.model == id)
  }

  lemma ProbeErrorSettles(r: Request, t: Target, e: ErrorKind, reply: Reply, breaker: BreakerState, w: World)
    requires Tripped(r.breakers, OpsOf(w.history, t.id)) && ProbeOut(r.breakers, OpsOf(w.history, t.id))
    ensures Settles(r, t.id, OnError(r, t, 1, e, reply, breaker, w))
  {
    ProbeError(r, t, e, reply, breaker, w);
    OneRecord(OnError(r, t, 1, e, reply, breaker, w).step.record);
  }

  lemma OneRecord(a: Attempt)
    ensures HasUntoldError([a], a.model) <==> a.error.Some? && !CountsAgainstBreaker(a.error.value)
  {
    assert a in [a];
  }

  lemma ProbeAttempt(r: Request, script: Script, t: Target, w: World)
    requires Tripped(r.breakers, OpsOf(w.history, t.id)) && ProbeOut(r.breakers, OpsOf(w.history, t.id))
    ensures Settles(r, t.id, Try(r, script, t, 1, w))
  {
    var reply := ReplyTo(script, w.calls);
    var limit := Min(t.timeout, r.deadline - w.now);
    var called := CallResult(reply, limit);
    if r.deadline - w.now > 0.0 && called.Erred? {
      var ended := w.(now := w.now + Min(reply.took, limit), calls := w.calls + 1);
      ProbeErrorSettles(r, t, called.error, reply, StateAt(r.breakers, BreakerOf(r, w, t.id), w.now), ended);
    }
  }

  /** The probe's attempt failed, and the walk goes on to the next target. */
  lemma ProbeMovesOn(r: Request, script: Script, j: nat, a: Attempt, after: World, rest: Report)
    requires Fine(r) && j < |r.targets| && rest == Walk(r, script, j + 1, 0, after)
    requires Tripped(r.breakers, OpsOf(after.history, r.targets[j].id))
    requires ProbeOut(r.breakers, OpsOf(after.history, r.targets[j].id)) <==> HasUntoldError([a], r.targets[j].id)
    ensures Fate(r, j, Prefixed([a], rest))
  {
    OthersUntouched(r, script, j + 1, 0, after, r.targets[j].id, rest);
    FateAfterMove(r, j, a, after, rest);
  }

  lemma FateAfterMove(r: Request, j: nat, a: Attempt, after: World, rest: Report)
    requires j < |r.targets| && Untouched(rest, after, r.targets[j].id, j + 1)
    requires Tripped(r.breakers, OpsOf(after.history, r.targets[j].id))
    requires ProbeOut(r.breakers, OpsOf(after.history, r.targets[j].id)) <==> HasUntoldError([a], r.targets[j].id)
    ensures Fate(r, j, Prefixed([a], rest))
  {
    RecordThenOthers(a, rest, r.targets[j].id);
  }

  lemma ProbeIsTried(r: Request, script: Script, j: nat, w: World, rep: Report)
    requires Fine(r) && j < |r.targets| && r.targets[j].maxAttempts >= 1 && rep == Walk(r, script, j, 1, w)
    requires Tripped(r.breakers, OpsOf(w.history, r.targets[j].id)) && ProbeOut(r.breakers, OpsOf(w.history, r.targets[j].id))
    ensures Fate(r, j, rep)
  {
    var t := r.targets[j];
    var tried := Try(r, script, t, 1, w);
    WalkAfterTry(r, script, j, 1, w, tried.step, tried.world);
    ProbeAttempt(r, script, t, w);
    ProbeSettled(r, script, j, tried.step, tried.world);
  }

  lemma ProbeSettled(r: Request, script: Script, j: nat, step: Step, after: World)
    requires Fine(r) && j < |r.targets| && r.targets[j].maxAttempts >= 1 && !step.Again?
    requires Tripped(r.breakers, OpsOf(after.history, r.targets[j].id))
    requires ProbeOut(r.breakers, OpsOf(after.history, r.targets[j].id)) <==>
      HasUntoldError(RecordOf(step), r.targets[j].id) || (EndsRequest(step) && !step.Fatal?)
    ensures Fate(r, j, AfterStep(r, script, j, 1, step, after))
  {
    if step.MoveOn? {
      ProbeMovesOn(r, script, j, step.record, after, Walk(r, script, j + 1, 0, after));
    }
  }

  lemma RecordThenOthers(a: Attempt, rest: Report, id: ModelId)
    requires MentionsNot(rest.log, id)
    ensures HasUntoldError(Prefixed([a], rest).log, id) <==> HasUntoldError([a], id)
  {
    if HasUntoldError([a], id) {
      assert a in [a] && a in [a] + rest.log;
    }
  }

  /** The walk from the probe's target on. */
  lemma ProbeAtTarget(r: Request, script: Script, j: nat, w: World, rep: Report)
    requires Fine(r) && j < |r.targets| && Waiting(r, w, r.targets[j].id) && rep == Walk(r, script, j, 0, w)
    ensures Fate(r, j, rep)
  {
    var t := r.targets[j];
    var skip, admitted := SkipFor(r, w, t), AfterAdmission(r, w, t);
    WalkAtTarget(r, script, j, w);
    AdmissionSendsProbe(r, w, t);
    if skip.Some? {
      var rest := Walk(r, script, j + 1, 0, admitted);
      OthersUntouched(r, script, j + 1, 0, admitted, t.id, rest);
      PrependOther(r, j, SkipRecord(t, skip.value), rest);
    } else {
      ProbeIsTried(r, script, j, admitted, rep);
    }
  }

  /** The walk up to the probe's target. */
  lemma {:induction false} WalkToProbe(r: Request, script: Script, k: nat, n: nat, w: World, j: nat, rep: Report)
    requires Fine(r) && k <= j < |r.targets| && (n > 0 ==> k < j && n <= r.targets[k].maxAttempts)
    requires Waiting(r, w, r.targets[j].id) && rep == Walk(r, script, k, n, w)
    ensures Fate(r, j, rep)
    decreases |r.targets| - k, if n == 0 then 1 else 0, if n == 0 then 0 else r.targets[k].maxAttempts - n
  {
    var t, id := r.targets[k], r.targets[j].id;
    if k == j {
      ProbeAtTarget(r, script, j, w, rep);
    } else if n == 0 {
      var skip, admitted := SkipFor(r, w, t), AfterAdmission(r, w, t);
      WalkAtTarget(r, script, k, w);
      AdmissionOfOther(r, w, t, id);
      var rest := if skip.Some? then Walk(r, script, k + 1, 0, admitted) else Walk(r, script, k, 1, admitted);
      WalkToProbe(r, script, if skip.Some? then k + 1 else k, if skip.Some? then 0 else 1, admitted, j, rest);
      if skip.Some? {
        PrependOther(r, j, SkipRecord(t, skip.value), rest);
      }
    } else {
      AttemptBeforeProbe(r, script, k, n, w, j, rep);
    }
  }

  lemma {:induction false} AttemptBeforeProbe(r: Request, script: Script, k: nat, n: nat, w: World, j: nat, rep: Report)
    requires Fine(r) && k < j < |r.targets| && 1 <= n <= r.targets[k].maxAttempts
    requires Waiting(r, w, r.targets[j].id) && rep == Walk(r, script, k, n, w)
    ensures Fate(r, j, rep)
    decreases |r.targets| - k, 0, r.targets[k].maxAttempts - n, 0
  {
    var tried := Try(r, script, r.targets[k], n, w);
    WalkAfterTry(r, script, k, n, w, tried.step, tried.world);
    TryOfOther(r, script, r.targets[k], n, w, r.targets[j].id);
    if tried.step.Again? || tried.step.MoveOn? {
      var k', n' := if tried.step.Again? then k else k + 1, if tried.step.Again? then n + 1 else 0;
      var rest := Walk(r, script, k', n', tried.world);
      WalkToProbe(r, script, k', n', tried.world, j, rest);
      assert tried.step.record in RecordOf(tried.step);
      PrependOther(r, j, tried.step.record, rest);
    }
  }

  // ------------------------------------------------------------------ whole requests

  lemma SucceededMore(cfg: Config, h: seq<Op>)
    ensures !Tripped(cfg, h + [Succeeded]) && !ProbeOut(cfg, h + [Succeeded])
  {
    assert (h + [Succeeded])[..|h|] == h;
    ProbeOutStep(cfg, h, Succeeded);
  }

  lemma BlockedForGood(r: Request, w: World, id: ModelId, later: real)
    requires Tripped(r.breakers, OpsOf(w.history, id)) && ProbeOut(r.breakers, OpsOf(w.history, id))
    ensures !Admits(r.breakers, BreakerOf(r, w, id), later)
  {
    AdmissionRule(r.breakers, OpsOf(w.history, id), later);
  }

  /** A chat request leaves a tripped target's probe out, and so the target blocked for good,
      exactly when its attempt failed with an error that does not count against the breaker, the
      client left or the adapter crashed during it, or the deadline had passed before it. */
  lemma ProbeStaysOutIff(r: Request, script: Script, j: nat, w: World)
    requires Fine(r) && j < |r.targets| && Waiting(r, w, r.targets[j].id)
    ensures var c, at, id := RunChat(r, script, w), Walk(r, script, 0, 0, w).result, r.targets[j].id;
      && (ProbeOut(r.breakers, OpsOf(c.world.history, id)) <==> HasUntoldError(c.log, id) || AbandonedAt(at, j))
      && (ProbeOut(r.breakers, OpsOf(c.world.history, id)) ==>
            forall later: real :: !Admits(r.breakers, BreakerOf(r, c.world, id), later))
  {
    var rep, c, id := Walk(r, script, 0, 0, w), RunChat(r, script, w), r.targets[j].id;
    WalkToProbe(r, script, 0, 0, w, j, rep);
    if rep.result.Arrived? {
      SuccessIsTold(rep.log, r.targets[rep.result.k], rep.result.n, rep.result.usage, rep.result.breaker, id);
      SucceededMore(r.breakers, OpsOf(rep.world.history, id));
    }
    if ProbeOut(r.breakers, OpsOf(c.world.history, id)) {
      forall later: real ensures !Admits(r.breakers, BreakerOf(r, c.world, id), later) {
        BlockedForGood(r, c.world, id, later);
      }
    }
  }

  lemma SuccessIsTold(log: seq<Attempt>, t: Target, n: nat, usage: Usage, breaker: BreakerState, id: ModelId)
    ensures HasUntoldError(log + [SuccessRecord(t, n, usage, breaker)], id) <==> HasUntoldError(log, id)
  {
    if HasUntoldError(log, id) {
      var b :| b in log && b.model == id && b.error.Some? && !CountsAgainstBreaker(b.error.value);
      assert b in log + [SuccessRecord(t, n, usage, breaker)];
    }
  }

  /** The stream that answered ended without telling the breaker: the client left, the adapter
      crashed, or it broke with an error that does not count. */
  predicate EndsUntold(ending: Ending) {
    ending.Quits? || (ending.Breaks? && !CountsAgainstBreaker(ending.error))
  }

  /** The same for streams, which also leave the probe out when the client leaves, the adapter
      crashes, or the stream breaks with an error that does not count, after the first item. */
  lemma StreamedProbeStaysOutIff(r: Request, script: Script, j: nat, w: World, idleLimit: real, promptTokens: nat)
    requires Fine(r) && j < |r.targets| && Waiting(r, w, r.targets[j].id)
    ensures var s, rep, id := RunStream(r, script, w, idleLimit, promptTokens), Walk(r, script, 0, 0, w), r.targets[j].id;
      ProbeOut(r.breakers, OpsOf(s.world.history, id)) <==>
      || HasUntoldError(rep.log, id) || AbandonedAt(rep.result, j)
      || (ArrivedAt(rep.result, j) && EndsUntold(Play(rep.result.stream, rep.world.now, r.deadline, idleLimit).ending))
  {
    var rep, id := Walk(r, script, 0, 0, w), r.targets[j].id;
    WalkToProbe(r, script, 0, 0, w, j, rep);
    if rep.result.Arrived? {
      var played := Play(rep.result.stream, rep.world.now, r.deadline, idleLimit);
      SucceededMore(r.breakers, OpsOf(rep.world.history, id));
      FailedMore(r.breakers, OpsOf(rep.world.history, id), played.now);
    }
  }

  // ------------------------------------------------------------------ three requests that block a model

  /** A request with one target, which is due for a probe. */
  ghost predicate DueForProbe(r: Request, t: Target, w: World) {
    && Fine(r) && r.targets == [t] && Callable(r, t) && Waiting(r, w, t.id)
    && w.now - LastFailure(OpsOf(w.history, t.id)) >= r.breakers.cooldown
  }

  lemma DueIsTried(r: Request, script: Script, t: Target, w: World)
    requires DueForProbe(r, t, w)
    ensures t.timeout > 0.0 && t.maxAttempts >= 1
    ensures Walk(r, script, 0, 0, w) == Walk(r, script, 0, 1, AfterAdmission(r, w, t))
  {
    assert t in r.targets && SaneTarget(t);
    WalkAtTarget(r, script, 0, w);
    AdmissionRule(r.breakers, OpsOf(w.history, t.id), w.now);
  }

  lemma CutBlocksForGood(r: Request, script: Script, t: Target, w: World, why: Abort, later: real)
    requires DueForProbe(r, t, w) && w.now < r.deadline
    requires CallResult(ReplyTo(script, w.calls), Min(t.timeout, r.deadline - w.now)) == Gone(why)
    ensures var c := RunChat(r, script, w);
      c.result == CutShort(why) && c.log == [] && !Admits(r.breakers, BreakerOf(r, c.world, t.id), later)
  {
    DueIsTried(r, script, t, w);
    var admitted := AfterAdmission(r, w, t);
    var tried := Try(r, script, t, 1, admitted);
    WalkAfterTry(r, script, 0, 1, admitted, tried.step, tried.world);
    ProbeStaysOutIff(r, script, 0, w);
    assert tried.step == CutOff(why);
  }

  /** The client leaves during the probe's call: nothing is logged, and the target is skipped at
      whatever time from then on. */
  lemma LeavingBlocksForGood(r: Request, script: Script, t: Target, w: World, later: real)
    requires DueForProbe(r, t, w) && w.now < r.deadline
    requires ReplyTo(script, w.calls).answer.Leaves? && ReplyTo(script, w.calls).took < Min(t.timeout, r.deadline - w.now)
    ensures var c := RunChat(r, script, w);
      c.result == CutShort(ClientLeft) && c.log == [] && !Admits(r.breakers, BreakerOf(r, c.world, t.id), later)
  {
    CutBlocksForGood(r, script, t, w, ClientLeft, later);
  }

  /** The probe's answer crashes its adapter: likewise, though the client stays and no error is
      logged. */
  lemma CrashBlocksForGood(r: Request, script: Script, t: Target, w: World, later: real)
    requires DueForProbe(r, t, w) && w.now < r.deadline
    requires ReplyTo(script, w.calls).answer.Crashes? && ReplyTo(script, w.calls).took < Min(t.timeout, r.deadline - w.now)
    ensures var c := RunChat(r, script, w);
      c.result == CutShort(AdapterCrashed) && c.log == [] && !Admits(r.breakers, BreakerOf(r, c.world, t.id), later)
  {
    CutBlocksForGood(r, script, t, w, AdapterCrashed, later);
  }

  /** A first target whose one call takes all the time there is, with a second due for a probe. */
  ghost predicate SlowThenDue(r: Request, script: Script, s: Target, t: Target, w: World) {
    var reply := ReplyTo(script, w.calls);
    && Fine(r) && r.targets == [s, t] && SkipFor(r, w, s).None? && s.maxAttempts == 1
    && w.now < r.deadline <= w.now + s.timeout && reply.took >= r.deadline - w.now && reply.recording >= 0.0
    && Callable(r, t) && Waiting(r, w, t.id)
    && r.deadline - LastFailure(OpsOf(w.history, t.id)) >= r.breakers.cooldown
  }

  lemma SlowTargetMovesOn(r: Request, script: Script, s: Target, t: Target, w: World) returns (record: Attempt, after: World)
    requires SlowThenDue(r, script, s, t, w)
    ensures record.model == s.id && record.outcome == TimedOut
    ensures after.now >= r.deadline && OpsOf(after.history, t.id) == OpsOf(w.history, t.id)
    ensures Walk(r, script, 0, 0, w) == Prefixed([record], Walk(r, script, 1, 0, after))
  {
    assert r.targets[0].id != r.targets[1].id;
    assert r.targets[0] in r.targets;
    WalkAtTarget(r, script, 0, w);
    var admitted := AfterAdmission(r, w, s);
    var tried := Try(r, script, s, 1, admitted);
    WalkAfterTry(r, script, 0, 1, admitted, tried.step, tried.world);
    AdmissionOfOther(r, w, s, t.id);
    TryOfOther(r, script, s, 1, admitted, t.id);
    assert tried.step.MoveOn?;
    record, after := tried.step.record, tried.world;
  }

  /** The deadline has passed when the walk comes to the probe's target: only the first target's
      timeout is logged, and the second target is skipped at whatever time from then on. */
  lemma LatenessBlocksForGood(r: Request, script: Script, s: Target, t: Target, w: World, later: real)
    requires SlowThenDue(r, script, s, t, w)
    ensures var c := RunChat(r, script, w);
      && c.result == Raised(DeadlineExceeded) && |c.log| == 1 && c.log[0].model == s.id
      && !Admits(r.breakers, BreakerOf(r, c.world, t.id), later)
  {
    var record, after := SlowTargetMovesOn(r, script, s, t, w);
    WalkAtTarget(r, script, 1, after);
    AdmissionRule(r.breakers, OpsOf(after.history, t.id), after.now);
    WalkAfterTry(r, script, 1, 1, AfterAdmission(r, after, t), OutOfTime, AfterAdmission(r, after, t));
    ProbeStaysOutIff(r, script, 1, w);
  }
}
