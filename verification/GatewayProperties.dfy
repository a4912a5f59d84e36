/** What every provider script gives: properties of `Walk`, `ChatFrom` and `StreamFrom`. */
module GatewayProperties {
  import opened Common
  import opened Resilience
  import opened Gateway

  predicate Distinct(targets: seq<Target>) {
    forall i, j :: 0 <= i < j < |targets| ==> targets[i].id != targets[j].id
  }

  /** The position of a model among the targets. */
  function PosOf(targets: seq<Target>, id: ModelId): nat {
    if targets == [] || targets[0].id == id then 0 else 1 + PosOf(targets[1..], id)
  }

  lemma {:induction false} PosOfTarget(targets: seq<Target>, k: nat)
    requires Distinct(targets) && k < |targets|
    ensures PosOf(targets, targets[k].id) == k
  {
    if k > 0 {
      assert targets[0].id != targets[k].id;
      PosOfTarget(targets[1..], k - 1);
    }
  }

  ghost predicate Sane(r: Request) {
    forall t :: t in r.targets ==> SaneTarget(t)
  }

  ghost predicate Fine(r: Request) {
    Sane(r) && Distinct(r.targets)
  }

  /** A target whose provider may be called. */
  predicate Callable(r: Request, t: Target) {
    t.id !in r.blocked && t.enabled
  }

  // ------------------------------------------------------------------ the attempt log

  /** A record that opens the log of a walk from target k: a skip or attempt 1 when the target
      has yet to be admitted, else attempt n. */
  predicate StartsAt(r: Request, k: nat, n: nat, a: Attempt) {
    && k < |r.targets| && a.model == r.targets[k].id
    && (a.outcome.Skipped? ==> n == 0 && a.number == 0)
    && (!a.outcome.Skipped? ==> a.number == (if n == 0 then 1 else n) && a.number <= r.targets[k].maxAttempts)
    && (n >= 2 ==> a.breaker.Closed?)
  }

  /** The record b may follow a: the next attempt at the same target, allowed only after a
      retryable error and with the breaker closed before and after it; or the first record of
      the next target.  Nothing follows a success or a bad request. */
  predicate Continues(r: Request, a: Attempt, b: Attempt) {
    var p, q := PosOf(r.targets, a.model), PosOf(r.targets, b.model);
    && !a.outcome.Success? && a.error != Some(BadRequest)
    && (|| (q == p && !a.outcome.Skipped? && a.error.Some? && Retryable(a.error.value)
            && a.breaker.Closed? && StartsAt(r, p, a.number + 1, b))
        || (q == p + 1 && StartsAt(r, q, 0, b)))
  }

  /** Record i + 1 may follow record i. */
  predicate ContinuesAt(r: Request, log: seq<Attempt>, i: nat)
    requires i + 1 < |log|
  {
    Continues(r, log[i], log[i + 1])
  }

  predicate Chained(r: Request, log: seq<Attempt>) {
    forall i :: 0 <= i < |log| - 1 ==> ContinuesAt(r, log, i)
  }

  /** Where a walk from target k may end, given its log. */
  predicate EndsAt(r: Request, k: nat, rep: Report) {
    var last := if rep.log == [] then k else PosOf(r.targets, rep.log[|rep.log| - 1].model);
    && (rep.result.Exhausted? ==> if rep.log == [] then k == |r.targets| else last == |r.targets| - 1)
    && (!rep.result.Exhausted? ==>
          var at := rep.result.k;
          at < |r.targets| && (if rep.log == [] then at == k
                               else at == last + 1 || (at == last && !rep.log[|rep.log| - 1].outcome.Skipped?)))
  }

  /** The log with the record that chat appends when a provider answers. */
  function FullLog(r: Request, rep: Report): seq<Attempt>
    requires rep.result.Arrived? ==> rep.result.k < |r.targets|
  {
    ChatFrom(r, rep).log
  }

  ghost predicate WellLogged(r: Request, k: nat, n: nat, rep: Report) {
    && (rep.result.Arrived? ==> rep.result.k < |r.targets|)
    && (FullLog(r, rep) != [] ==> StartsAt(r, k, n, FullLog(r, rep)[0]))
    && Chained(r, FullLog(r, rep))
    && EndsAt(r, k, rep)
  }

  lemma PrependLog(r: Request, k: nat, n: nat, a: Attempt, k': nat, n': nat, rest: Report)
    requires Distinct(r.targets) && k < |r.targets| && k <= k' <= |r.targets|
    requires StartsAt(r, k, n, a) && !a.outcome.Success? && a.error != Some(BadRequest)
    requires WellLogged(r, k', n', rest)
    requires (k' == k + 1 && n' == 0)
      || (k' == k && n' == a.number + 1 && !a.outcome.Skipped? && a.error.Some? && Retryable(a.error.value) && a.breaker.Closed?)
    ensures WellLogged(r, k, n, Prefixed([a], rest))
  {
    var rep := Prefixed([a], rest);
    var full, tail := FullLog(r, rep), FullLog(r, rest);
    assert full == [a] + tail;
    PosOfTarget(r.targets, k);
    if k' < |r.targets| {
      PosOfTarget(r.targets, k');
    }
    forall i | 0 <= i < |full| - 1 ensures ContinuesAt(r, full, i) {
      if i > 0 {
        assert ContinuesAt(r, tail, i - 1);
        assert full[i] == tail[i - 1] && full[i + 1] == tail[i];
      }
    }
    if rest.log == [] {
      assert rep.log == [a];
    } else {
      assert rep.log[|rep.log| - 1] == rest.log[|rest.log| - 1];
    }
  }

  /** An error leaves the breaker closed only if it was closed before. */
  lemma ErrorKeepsOpen(r: Request, w: World, t: Target, e: ErrorKind, recording: real)
    requires BreakerOf(r, AfterError(w, t, e, recording), t.id).openedAt.None?
    ensures BreakerOf(r, w, t.id).openedAt.None?
  {
    if CountsAgainstBreaker(e) {
      var h := OpsOf(w.history, t.id);
      assert (h + [FailedAt(w.now)])[..|h|] == h;
    }
  }

  /** What an attempt's record says. */
  lemma TryRecords(r: Request, script: Script, k: nat, n: nat, w: World)
    requires k < |r.targets| && 1 <= n <= r.targets[k].maxAttempts
    requires n >= 2 ==> BreakerOf(r, w, r.targets[k].id).openedAt.None?
    ensures var step := Try(r, script, r.targets[k], n, w).step;
      && (step.Fatal? || step.Again? || step.MoveOn? ==>
            && StartsAt(r, k, n, step.record)
            && !step.record.outcome.Skipped? && !step.record.outcome.Success?
            && (step.record.error == Some(BadRequest) <==> step.Fatal?))
      && (step.Answers? && n >= 2 ==> step.breaker.Closed?)
  {
  }

  lemma StopIsLogged(r: Request, script: Script, k: nat, n: nat, w: World)
    requires Fine(r) && k < |r.targets| && 1 <= n <= r.targets[k].maxAttempts
    requires n >= 2 ==> BreakerOf(r, w, r.targets[k].id).openedAt.None?
    requires var step := Try(r, script, r.targets[k], n, w).step; !step.Again? && !step.MoveOn?
    ensures WellLogged(r, k, n, Walk(r, script, k, n, w))
  {
    TryRecords(r, script, k, n, w);
    PosOfTarget(r.targets, k);
  }

  /** A retry is granted only for a retryable error with the breaker closed throughout. */
  lemma TryKeepsOpen(r: Request, script: Script, t: Target, n: nat, w: World)
    requires n >= 1 && Try(r, script, t, n, w).step.Again?
    ensures var tried := Try(r, script, t, n, w);
      && n < t.maxAttempts
      && tried.step.record.error.Some? && Retryable(tried.step.record.error.value)
      && tried.step.record.breaker.Closed?
      && BreakerOf(r, tried.world, t.id).openedAt.None?
  {
    var reply := ReplyTo(script, w.calls);
    var limit := Min(t.timeout, r.deadline - w.now);
    var ended := w.(now := w.now + Min(reply.took, limit), calls := w.calls + 1);
    ErrorKeepsOpen(r, ended, t, CallResult(reply, limit).error, reply.recording);
  }

  /** The log of any walk, from a target on: it opens with that target, every record may follow
      the one before, nothing precedes a success or follows a bad request, and it stops where
      the result says. */
  lemma {:induction false} WalkIsLogged(r: Request, script: Script, k: nat, w: World, rep: Report)
    requires Fine(r) && k <= |r.targets| && rep == Walk(r, script, k, 0, w)
    ensures WellLogged(r, k, 0, rep)
    decreases |r.targets| - k, 1, 0, 0
  {
    if k < |r.targets| {
      var t := r.targets[k];
      PosOfTarget(r.targets, k);
      var skip, admitted := SkipFor(r, w, t), AfterAdmission(r, w, t);
      WalkAtTarget(r, script, k, w);
      if skip.Some? {
        var rest := Walk(r, script, k + 1, 0, admitted);
        WalkIsLogged(r, script, k + 1, admitted, rest);
        PrependLog(r, k, 0, SkipRecord(t, skip.value), k + 1, 0, rest);
      } else {
        AttemptsAreLogged(r, script, k, 1, admitted, rep);
      }
    }
  }

  lemma {:induction false} AttemptsAreLogged(r: Request, script: Script, k: nat, n: nat, w: World, rep: Report)
    requires Fine(r) && k < |r.targets| && 1 <= n <= r.targets[k].maxAttempts
    requires n >= 2 ==> BreakerOf(r, w, r.targets[k].id).openedAt.None?
    requires rep == Walk(r, script, k, n, w)
    ensures WellLogged(r, k, n, rep)
    decreases |r.targets| - k, 0, r.targets[k].maxAttempts - n, 1
  {
    var tried := Try(r, script, r.targets[k], n, w);
    WalkAfterTry(r, script, k, n, w, tried.step, tried.world);
    TryRecords(r, script, k, n, w);
    if tried.step.Again? {
      TryKeepsOpen(r, script, r.targets[k], n, w);
      RetryIsLogged(r, script, k, n, tried.step.record, tried.world, Walk(r, script, k, n + 1, tried.world));
    } else if tried.step.MoveOn? {
      MoveIsLogged(r, script, k, n, tried.step.record, tried.world, Walk(r, script, k + 1, 0, tried.world));
    } else {
      StopIsLogged(r, script, k, n, w);
    }
  }

  lemma {:induction false} RetryIsLogged(
      r: Request, script: Script, k: nat, n: nat, a: Attempt, after: World, rest: Report)
    requires Fine(r) && k < |r.targets| && 1 <= n < r.targets[k].maxAttempts
    requires BreakerOf(r, after, r.targets[k].id).openedAt.None?
    requires StartsAt(r, k, n, a) && !a.outcome.Skipped? && !a.outcome.Success?
    requires a.error.Some? && Retryable(a.error.value) && a.breaker.Closed?
    requires rest == Walk(r, script, k, n + 1, after)
    ensures WellLogged(r, k, n, Prefixed([a], rest))
    decreases |r.targets| - k, 0, r.targets[k].maxAttempts - n, 0
  {
    AttemptsAreLogged(r, script, k, n + 1, after, rest);
    PrependLog(r, k, n, a, k, n + 1, rest);
  }

  lemma {:induction false} MoveIsLogged(
      r: Request, script: Script, k: nat, n: nat, a: Attempt, after: World, rest: Report)
    requires Fine(r) && k < |r.targets| && 1 <= n <= r.targets[k].maxAttempts
    requires StartsAt(r, k, n, a) && !a.outcome.Skipped? && !a.outcome.Success?
    requires a.error != Some(BadRequest)
    requires rest == Walk(r, script, k + 1, 0, after)
    ensures WellLogged(r, k, n, Prefixed([a], rest))
    decreases |r.targets| - k, 0, r.targets[k].maxAttempts - n, 0
  {
    WalkIsLogged(r, script, k + 1, after, rest);
    PrependToNext(r, k, n, a, rest);
  }

  lemma PrependToNext(r: Request, k: nat, n: nat, a: Attempt, rest: Report)
    requires Distinct(r.targets) && k < |r.targets|
    requires StartsAt(r, k, n, a) && !a.outcome.Success? && a.error != Some(BadRequest)
    requires WellLogged(r, k + 1, 0, rest)
    ensures WellLogged(r, k, n, Prefixed([a], rest))
  {
    PrependLog(r, k, n, a, k + 1, 0, rest);
  }

  lemma RequestIsLogged(r: Request, script: Script, w: World)
    requires Fine(r)
    ensures WellLogged(r, 0, 0, Walk(r, script, 0, 0, w))
  {
    WalkIsLogged(r, script, 0, w, Walk(r, script, 0, 0, w));
  }

  // ------------------------------------------------------------------ chat, over every script

  function RunChat(r: Request, script: Script, w: World): ChatReport
    requires forall t :: t in r.targets ==> SaneTarget(t)
  {
    ChatFrom(r, Walk(r, script, 0, 0, w))
  }

  lemma {:induction false} PositionsRise(r: Request, log: seq<Attempt>, i: nat, j: nat)
    requires Chained(r, log) && i <= j < |log|
    ensures PosOf(r.targets, log[i].model) <= PosOf(r.targets, log[j].model) <= PosOf(r.targets, log[i].model) + (j - i)
  {
    if i < j {
      PositionsRise(r, log, i, j - 1);
      assert ContinuesAt(r, log, j - 1);
    }
  }

  lemma {:induction false} EveryRecordStarts(r: Request, log: seq<Attempt>, i: nat)
    requires Fine(r) && Chained(r, log) && i < |log|
    requires StartsAt(r, 0, 0, log[0])
    ensures exists n :: StartsAt(r, PosOf(r.targets, log[i].model), n, log[i])
  {
    if i == 0 {
      PosOfTarget(r.targets, 0);
    } else {
      assert ContinuesAt(r, log, i - 1);
      PosOfTarget(r.targets, PosOf(r.targets, log[i].model));
    }
  }

  /** Targets in order, from the first on and leaving none out; attempts at one target are
      numbered 1, 2, ... up to its maximum, and 0 marks a skip. */
  predicate FollowsTargets(r: Request, log: seq<Attempt>) {
    && (log != [] ==> PosOf(r.targets, log[0].model) == 0 && log[0].number <= 1)
    && (forall i, j :: 0 <= i <= j < |log| ==> PosOf(r.targets, log[i].model) <= PosOf(r.targets, log[j].model))
    && (forall i :: 0 <= i < |log| ==>
          var t := PosOf(r.targets, log[i].model);
          t < |r.targets| && r.targets[t].id == log[i].model
          && log[i].number <= r.targets[t].maxAttempts && (log[i].number == 0 <==> log[i].outcome.Skipped?))
    && (forall i :: 0 < i < |log| ==> FollowsAt(r, log, i))
  }

  /** Record i is the next attempt at the same target or the first of the next target. */
  predicate FollowsAt(r: Request, log: seq<Attempt>, i: nat)
    requires 0 < i < |log|
  {
    if log[i].model == log[i - 1].model then log[i].number == log[i - 1].number + 1
    else log[i].number <= 1 && PosOf(r.targets, log[i].model) == PosOf(r.targets, log[i - 1].model) + 1
  }

  /** A second or later attempt comes only after a retryable error at the same model, with the
      breaker closed before and after it. */
  predicate RetriesAreJustified(log: seq<Attempt>) {
    forall i :: 0 <= i < |log| && log[i].number >= 2 ==>
      && i > 0 && log[i - 1].model == log[i].model && log[i - 1].error.Some? && Retryable(log[i - 1].error.value)
      && log[i - 1].breaker.Closed? && log[i].breaker.Closed?
  }

  /** Nothing is tried after a success or a rejected request. */
  predicate NothingAfterTheEnd(log: seq<Attempt>) {
    forall i :: 0 <= i < |log| && (log[i].outcome.Success? || log[i].error == Some(BadRequest)) ==> i == |log| - 1
  }

  lemma ChainFollowsTargets(r: Request, log: seq<Attempt>)
    requires Fine(r) && Chained(r, log) && (log != [] ==> StartsAt(r, 0, 0, log[0]))
    ensures FollowsTargets(r, log)
  {
    if log != [] {
      PosOfTarget(r.targets, 0);
    }
    forall i, j | 0 <= i <= j < |log| ensures PosOf(r.targets, log[i].model) <= PosOf(r.targets, log[j].model) {
      PositionsRise(r, log, i, j);
    }
    forall i | 0 <= i < |log|
      ensures exists n :: StartsAt(r, PosOf(r.targets, log[i].model), n, log[i])
    {
      EveryRecordStarts(r, log, i);
    }
    forall i | 0 < i < |log| ensures FollowsAt(r, log, i) {
      assert ContinuesAt(r, log, i - 1);
      EveryRecordStarts(r, log, i - 1);
    }
  }

  lemma ChainIsJustified(r: Request, log: seq<Attempt>)
    requires Fine(r) && Chained(r, log) && (log != [] ==> StartsAt(r, 0, 0, log[0]))
    ensures RetriesAreJustified(log) && NothingAfterTheEnd(log)
  {
    forall i | 0 <= i < |log| && log[i].number >= 2
      ensures i > 0 && log[i - 1].model == log[i].model && log[i - 1].error.Some? && Retryable(log[i - 1].error.value)
      ensures log[i - 1].breaker.Closed? && log[i].breaker.Closed?
    {
      assert ContinuesAt(r, log, i - 1);
      EveryRecordStarts(r, log, i - 1);
    }
    forall i | 0 <= i < |log| - 1 ensures !log[i].outcome.Success? && log[i].error != Some(BadRequest) {
      assert ContinuesAt(r, log, i);
    }
  }

  /** For every provider script: the attempt log follows the targets, retries are justified,
      and nothing comes after a success or a rejected request. */
  lemma AttemptLogIsOrdered(r: Request, script: Script, w: World)
    requires Fine(r)
    ensures var log := RunChat(r, script, w).log;
      FollowsTargets(r, log) && RetriesAreJustified(log) && NothingAfterTheEnd(log)
  {
    var log := RunChat(r, script, w).log;
    RequestIsLogged(r, script, w);
    ChainFollowsTargets(r, log);
    ChainIsJustified(r, log);
  }

  /** What the log of a walk from target k says whichever models the targets are: a walk logs no
      success and no cost, its last record is a rejection exactly if it ends in one, and if it only
      skips, it skips target after target. */
  predicate Reported(r: Request, k: nat, rep: Report) {
    && (forall a :: a in rep.log ==> !a.outcome.Success? && a.cost == 0.0)
    && (rep.result.Refused? ==> rep.result.code in {BadRequestCode, DeadlineExceeded})
    && (rep.log != [] && rep.log[|rep.log| - 1].error == Some(BadRequest) <==>
          rep.result.Refused? && rep.result.code.BadRequestCode?)
    && (AllSkipped(rep.log) ==> SkipsFrom(r, k, rep.log) && (rep.result.Exhausted? <==> k + |rep.log| == |r.targets|))
  }

  predicate SkipsFrom(r: Request, k: nat, log: seq<Attempt>) {
    k + |log| <= |r.targets| && forall i :: 0 <= i < |log| ==> log[i].model == r.targets[k + i].id
  }

  lemma ReportedOnMore(r: Request, k: nat, a: Attempt, k': nat, rest: Report)
    requires Reported(r, k', rest) && k < |r.targets|
    requires a.model == r.targets[k].id && !a.outcome.Success? && a.cost == 0.0 && a.error != Some(BadRequest)
    requires a.outcome.Skipped? ==> k' == k + 1
    ensures Reported(r, k, Prefixed([a], rest))
  {
    var rep := Prefixed([a], rest);
    assert rep.log[|rep.log| - 1] == if rest.log == [] then a else rest.log[|rest.log| - 1];
    if AllSkipped(rep.log) {
      assert a in rep.log && forall b :: b in rest.log ==> b in rep.log;
    }
  }

  lemma TryReports(r: Request, script: Script, t: Target, n: nat, w: World)
    requires n >= 1
    ensures var step := Try(r, script, t, n, w).step;
      RecordOf(step) != [] ==>
        && step.record.model == t.id && step.record.cost == 0.0
        && !step.record.outcome.Skipped? && !step.record.outcome.Success?
        && (step.record.error == Some(BadRequest) <==> step.Fatal?)
  {
  }

  lemma {:induction false} WalkIsReported(r: Request, script: Script, k: nat, n: nat, w: World, rep: Report)
    requires Sane(r)
    requires k <= |r.targets| && (n > 0 ==> k < |r.targets| && n <= r.targets[k].maxAttempts)
    requires rep == Walk(r, script, k, n, w)
    ensures Reported(r, k, rep)
    decreases |r.targets| - k, if n == 0 then 1 else 0, if n == 0 then 0 else r.targets[k].maxAttempts - n
  {
    if k < |r.targets| {
      var t := r.targets[k];
      if n == 0 {
        var skip, admitted := SkipFor(r, w, t), AfterAdmission(r, w, t);
        WalkAtTarget(r, script, k, w);
        var rest := if skip.Some? then Walk(r, script, k + 1, 0, admitted) else Walk(r, script, k, 1, admitted);
        WalkIsReported(r, script, if skip.Some? then k + 1 else k, if skip.Some? then 0 else 1, admitted, rest);
        if skip.Some? {
          ReportedOnMore(r, k, SkipRecord(t, skip.value), k + 1, rest);
        }
      } else {
        var tried := Try(r, script, t, n, w);
        WalkAfterTry(r, script, k, n, w, tried.step, tried.world);
        TryReports(r, script, t, n, w);
        if tried.step.Again? || tried.step.MoveOn? {
          var k', n' := if tried.step.Again? then k else k + 1, if tried.step.Again? then n + 1 else 0;
          var rest := Walk(r, script, k', n', tried.world);
          WalkIsReported(r, script, k', n', tried.world, rest);
          ReportedOnMore(r, k, tried.step.record, k', rest);
        }
      }
    }
  }

  /** The log's last record tells the result. */
  predicate TellsResult(r: Request, c: ChatReport) {
    var last := if c.log == [] then None else Some(c.log[|c.log| - 1]);
    && (c.result.Served? <==> last.Some? && last.value.outcome.Success?)
    && (c.result.Served? ==> c.result.k < |r.targets| && last.value.model == r.targets[c.result.k].id)
    && (c.result == Raised(BadRequestCode) <==> last.Some? && last.value.error == Some(BadRequest))
  }

  lemma ReportTellsResult(r: Request, rep: Report)
    requires Reported(r, 0, rep) && (rep.result.Arrived? ==> rep.result.k < |r.targets|)
    ensures TellsResult(r, ChatFrom(r, rep))
  {
    assert rep.log != [] ==> rep.log[|rep.log| - 1] in rep.log;
  }

  /** Chat is served exactly when the log ends in a success, by that record's model; it raises
      `bad_request` exactly when the last record is one. */
  lemma ResultMatchesLog(r: Request, script: Script, w: World)
    requires Sane(r)
    ensures TellsResult(r, RunChat(r, script, w))
  {
    var rep := Walk(r, script, 0, 0, w);
    WalkIsReported(r, script, 0, 0, w, rep);
    ReportTellsResult(r, rep);
  }

  /** `no_available_provider` means exactly that every target was skipped, once each. */
  lemma NoProviderIffAllSkipped(r: Request, script: Script, w: World)
    requires Sane(r)
    ensures var c := RunChat(r, script, w);
      c.result == Raised(NoAvailableProvider) <==>
      |c.log| == |r.targets|
      && forall i :: 0 <= i < |c.log| ==> c.log[i].outcome.Skipped? && c.log[i].model == r.targets[i].id
  {
    var rep, c := Walk(r, script, 0, 0, w), RunChat(r, script, w);
    WalkIsReported(r, script, 0, 0, w, rep);
    assert rep.result.Arrived? ==> c.log[|c.log| - 1].outcome.Success?;
    if forall i :: 0 <= i < |c.log| ==> c.log[i].outcome.Skipped? {
      assert AllSkipped(c.log);
    }
  }

  /** `ChatOutcome.fallback_used`. */
  predicate FallbackUsed(log: seq<Attempt>, server: ModelId) {
    exists a :: a in log && a.model != server
  }

  /** A fallback was used exactly when the model that served is not the first target. */
  lemma FallbackIffNotFirst(r: Request, script: Script, w: World)
    requires Fine(r) && RunChat(r, script, w).result.Served?
    ensures var c := RunChat(r, script, w);
      c.result.k < |r.targets|
      && (FallbackUsed(c.log, r.targets[c.result.k].id) <==> c.result.k != 0)
  {
    var c := RunChat(r, script, w);
    AttemptLogIsOrdered(r, script, w);
    ResultMatchesLog(r, script, w);
    var k := c.result.k;
    PosOfTarget(r.targets, k);
    if k != 0 {
      assert c.log[0] in c.log;
    } else {
      forall a | a in c.log ensures a.model == r.targets[0].id {
        var i :| 0 <= i < |c.log| && c.log[i] == a;
        assert PosOf(r.targets, c.log[i].model) <= PosOf(r.targets, c.log[|c.log| - 1].model);
      }
    }
  }

  /** An attempt made with the breaker not closed - a half-open probe - is the only one at its
      target: what follows it is the next target. */
  lemma OneCallPerProbe(r: Request, script: Script, w: World, i: nat)
    requires Fine(r) && i + 1 < |RunChat(r, script, w).log|
    requires var a := RunChat(r, script, w).log[i]; !a.outcome.Skipped? && !a.breaker.Closed?
    ensures var log := RunChat(r, script, w).log;
      log[i].number == 1 && PosOf(r.targets, log[i + 1].model) == PosOf(r.targets, log[i].model) + 1
  {
    var log := RunChat(r, script, w).log;
    RequestIsLogged(r, script, w);
    AttemptLogIsOrdered(r, script, w);
    assert ContinuesAt(r, log, i);
  }

  /** A retry waits no longer than the cap: a provider's Retry-After if that is within it, else a
      random time below the base doubled with every attempt. */
  lemma {:induction false} DelayIsCapped(r: Request, attempt: nat, e: ErrorKind, jitter: real)
    requires attempt >= 1 && jitter >= 0.0 && r.backoffBase >= 0.0 && r.backoffCap >= 0.0
    ensures var d := Delay(r, attempt, e, jitter);
      if e.RateLimited? && e.retryAfter.Some? then
        d <= r.backoffCap && (e.retryAfter.value <= r.backoffCap ==> d == e.retryAfter.value)
      else 0.0 <= d <= r.backoffCap && d <= jitter && d <= Doubled(r.backoffBase, attempt - 1)
  {
    DoubledGrows(r.backoffBase, attempt - 1);
  }

  lemma {:induction false} DoubledGrows(base: real, n: nat)
    requires base >= 0.0
    ensures Doubled(base, n) >= base
  {
    if n > 0 {
      DoubledGrows(base, n - 1);
    }
  }

  // ------------------------------------------------------------------ time, calls and egress

  /** Writing a usage record takes at most `most`; timers and sleeps are exact. */
  predicate RecordsWithin(script: Script, most: real) {
    most >= 0.0 && forall k :: 0 <= k < |script| ==> 0.0 <= script[k].recording <= most
  }

  lemma TryEndsInTime(r: Request, script: Script, t: Target, n: nat, w: World, most: real)
    requires n >= 1 && RecordsWithin(script, most) && w.now <= r.deadline + most
    ensures var tried := Try(r, script, t, n, w);
      if tried.step.Answers? then tried.world.now <= r.deadline && tried.step.recording <= most
      else tried.world.now <= r.deadline + most
  {
    assert ReplyTo(script, w.calls).recording <= most;
  }

  predicate InTime(r: Request, rep: Report, most: real) {
    if rep.result.Arrived? then rep.world.now <= r.deadline && rep.result.recording <= most
    else rep.world.now <= r.deadline + most
  }

  lemma {:induction false} WalkEndsInTime(r: Request, script: Script, k: nat, n: nat, w: World, most: real, rep: Report)
    requires forall t :: t in r.targets ==> SaneTarget(t)
    requires k <= |r.targets| && (n > 0 ==> k < |r.targets| && n <= r.targets[k].maxAttempts)
    requires RecordsWithin(script, most) && w.now <= r.deadline + most
    requires rep == Walk(r, script, k, n, w)
    ensures InTime(r, rep, most)
    decreases |r.targets| - k, if n == 0 then 1 else 0, if n == 0 then 0 else r.targets[k].maxAttempts - n
  {
    if k < |r.targets| {
      var t := r.targets[k];
      if n == 0 {
        WalkAtTarget(r, script, k, w);
        var next, first := if SkipFor(r, w, t).Some? then k + 1 else k, if SkipFor(r, w, t).Some? then 0 else 1;
        WalkEndsInTime(r, script, next, first, AfterAdmission(r, w, t), most,
          Walk(r, script, next, first, AfterAdmission(r, w, t)));
      } else {
        var tried := Try(r, script, t, n, w);
        TryEndsInTime(r, script, t, n, w, most);
        WalkAfterTry(r, script, k, n, w, tried.step, tried.world);
        if tried.step.Again? {
          WalkEndsInTime(r, script, k, n + 1, tried.world, most, Walk(r, script, k, n + 1, tried.world));
        } else if tried.step.MoveOn? {
          WalkEndsInTime(r, script, k + 1, 0, tried.world, most, Walk(r, script, k + 1, 0, tried.world));
        }
      }
    }
  }

  /** A chat request is over by its deadline, up to the time one usage record takes to write. */
  lemma ChatEndsByDeadline(r: Request, script: Script, w: World, most: real)
    requires forall t :: t in r.targets ==> SaneTarget(t)
    requires RecordsWithin(script, most) && w.now <= r.deadline
    ensures RunChat(r, script, w).world.now <= r.deadline + most
  {
    WalkEndsInTime(r, script, 0, 0, w, most, Walk(r, script, 0, 0, w));
  }

  function CallsIn(log: seq<Attempt>): nat {
    if log == [] then 0 else (if log[0].outcome.Skipped? then 0 else 1) + CallsIn(log[1..])
  }

  ghost predicate CallsAllowed(r: Request, rep: Report) {
    && (forall a :: a in rep.log && !a.outcome.Skipped? ==>
          exists i :: 0 <= i < |r.targets| && r.targets[i].id == a.model && Callable(r, r.targets[i]))
    && (rep.result.Arrived? || rep.result.Cut? ==> rep.result.k < |r.targets| && Callable(r, r.targets[rep.result.k]))
  }

  lemma CallsInCons(a: Attempt, log: seq<Attempt>)
    ensures CallsIn([a] + log) == (if a.outcome.Skipped? then 0 else 1) + CallsIn(log)
  {
    assert ([a] + log)[1..] == log;
  }

  lemma TryCalls(r: Request, script: Script, t: Target, n: nat, w: World)
    requires n >= 1
    ensures var tried := Try(r, script, t, n, w);
      && tried.world.calls == w.calls + (if tried.step.OutOfTime? then 0 else 1)
      && (tried.step.Fatal? || tried.step.Again? || tried.step.MoveOn? ==> !tried.step.record.outcome.Skipped?)
  {
  }

  /** The calls from w to the end of the report are its attempts and the one that ended it. */
  predicate CallsLogged(w: World, rep: Report) {
    rep.world.calls == w.calls + CallsIn(rep.log) + if rep.result.Arrived? || rep.result.Cut? then 1 else 0
  }

  lemma {:induction false} WalkCallsLogged(r: Request, script: Script, k: nat, n: nat, w: World, rep: Report)
    requires forall t :: t in r.targets ==> SaneTarget(t)
    requires k <= |r.targets| && (n > 0 ==> k < |r.targets| && n <= r.targets[k].maxAttempts)
    requires rep == Walk(r, script, k, n, w)
    ensures CallsLogged(w, rep)
    decreases |r.targets| - k, if n == 0 then 1 else 0, if n == 0 then 0 else r.targets[k].maxAttempts - n
  {
    if k < |r.targets| {
      var t := r.targets[k];
      if n == 0 {
        var skip, admitted := SkipFor(r, w, t), AfterAdmission(r, w, t);
        WalkAtTarget(r, script, k, w);
        var rest := if skip.Some? then Walk(r, script, k + 1, 0, admitted) else Walk(r, script, k, 1, admitted);
        WalkCallsLogged(r, script, if skip.Some? then k + 1 else k, if skip.Some? then 0 else 1, admitted, rest);
        if skip.Some? {
          CallsInCons(SkipRecord(t, skip.value), rest.log);
        }
      } else {
        var tried := Try(r, script, t, n, w);
        WalkAfterTry(r, script, k, n, w, tried.step, tried.world);
        TryCalls(r, script, t, n, w);
        if tried.step.Again? || tried.step.MoveOn? {
          var k', n' := if tried.step.Again? then k else k + 1, if tried.step.Again? then n + 1 else 0;
          var rest := Walk(r, script, k', n', tried.world);
          WalkCallsLogged(r, script, k', n', tried.world, rest);
          CallsInCons(tried.step.record, rest.log);
        }
      }
    }
  }

  /** Every provider call of a request is an attempt in its log, or the one that answered or was
      abandoned. */
  lemma CallsAreLogged(r: Request, script: Script, w: World)
    requires Sane(r)
    ensures CallsLogged(w, Walk(r, script, 0, 0, w))
  {
    WalkCallsLogged(r, script, 0, 0, w, Walk(r, script, 0, 0, w));
  }

  lemma CallsAllowedOnMore(r: Request, a: Attempt, k: nat, rest: Report)
    requires k < |r.targets| && CallsAllowed(r, rest)
    requires a.outcome.Skipped? || (a.model == r.targets[k].id && Callable(r, r.targets[k]))
    ensures CallsAllowed(r, Prefixed([a], rest))
  {
  }

  /** Every call goes to a target that is enabled and not blocked. */
  lemma {:induction false} CallsAreAllowed(r: Request, script: Script, k: nat, n: nat, w: World, rep: Report)
    requires forall t :: t in r.targets ==> SaneTarget(t)
    requires k <= |r.targets| && (n > 0 ==> k < |r.targets| && n <= r.targets[k].maxAttempts && Callable(r, r.targets[k]))
    requires rep == Walk(r, script, k, n, w)
    ensures CallsAllowed(r, rep)
    decreases |r.targets| - k, if n == 0 then 1 else 0, if n == 0 then 0 else r.targets[k].maxAttempts - n
  {
    if k < |r.targets| {
      var t := r.targets[k];
      if n == 0 {
        var skip, admitted := SkipFor(r, w, t), AfterAdmission(r, w, t);
        WalkAtTarget(r, script, k, w);
        var rest := if skip.Some? then Walk(r, script, k + 1, 0, admitted) else Walk(r, script, k, 1, admitted);
        CallsAreAllowed(r, script, if skip.Some? then k + 1 else k, if skip.Some? then 0 else 1, admitted, rest);
        if skip.Some? {
          CallsAllowedOnMore(r, SkipRecord(t, skip.value), k, rest);
        }
      } else {
        var tried := Try(r, script, t, n, w);
        WalkAfterTry(r, script, k, n, w, tried.step, tried.world);
        if tried.step.Again? || tried.step.MoveOn? {
          var k', n' := if tried.step.Again? then k else k + 1, if tried.step.Again? then n + 1 else 0;
          var rest := Walk(r, script, k', n', tried.world);
          CallsAreAllowed(r, script, k', n', tried.world, rest);
          CallsAllowedOnMore(r, tried.step.record, k, rest);
        }
      }
    }
  }

  /** Without permission to leave the box, no provider that sends data off the box is called:
      every model in the log that was not skipped, and the one that answers or is abandoned, is
      served by a provider that keeps data on the box. */
  lemma NoEgressWithoutPermission(r: Request, script: Script, w: World)
    requires Sane(r) && r.blocked == EgressBlocked(r.targets, false)
    ensures var rep := Walk(r, script, 0, 0, w);
      && (forall a, i :: a in rep.log && !a.outcome.Skipped? && 0 <= i < |r.targets| && r.targets[i].id == a.model ==>
            !r.targets[i].dataEgress)
      && (rep.result.Arrived? || rep.result.Cut? ==>
            rep.result.k < |r.targets| && !r.targets[rep.result.k].dataEgress)
  {
    CallsAreAllowed(r, script, 0, 0, w, Walk(r, script, 0, 0, w));
    forall i | 0 <= i < |r.targets| && Callable(r, r.targets[i]) ensures !r.targets[i].dataEgress {
      assert r.targets[i] in r.targets;
    }
    var rep := Walk(r, script, 0, 0, w);
    forall a, i | a in rep.log && !a.outcome.Skipped? && 0 <= i < |r.targets| && r.targets[i].id == a.model
      ensures !r.targets[i].dataEgress
    {
      var j :| 0 <= j < |r.targets| && r.targets[j].id == a.model && Callable(r, r.targets[j]);
      assert r.targets[i] in r.targets && r.targets[i].id !in r.blocked;
    }
  }

  // ------------------------------------------------------------------ streaming, over every script

  function RunStream(r: Request, script: Script, w: World, idleLimit: real, promptTokens: nat): StreamReport
    requires forall t :: t in r.targets ==> SaneTarget(t)
  {
    StreamFrom(r, Walk(r, script, 0, 0, w), idleLimit, promptTokens)
  }

  predicate IsText(e: Event) {
    e.Text?
  }

  function CostSum(log: seq<Attempt>): real {
    if log == [] then 0.0 else log[0].cost + CostSum(log[1..])
  }

  /** A complete stream: one failure before anything was shown, or the start, any number of
      deltas, and one completion or one mid-stream failure. */
  predicate CompleteStream(events: seq<Event>) {
    || (|events| == 1 && events[0].Failed?)
    || (&& |events| >= 2 && events[0].Started?
        && (forall i :: 1 <= i < |events| - 1 ==> IsText(events[i]))
        && (events[|events| - 1].FailedMidStream?
            || (events[|events| - 1].Completed? && events[|events| - 1].model == events[0].model
                && events[|events| - 1].cost == CostSum(events[|events| - 1].attempts))))
  }

  /** The beginning of a stream: nothing, or the start and some deltas. */
  predicate StreamPrefix(events: seq<Event>) {
    events != [] ==> events[0].Started? && forall i :: 1 <= i < |events| ==> IsText(events[i])
  }

  lemma {:induction false} CostOfAppend(log: seq<Attempt>, a: Attempt)
    requires forall b :: b in log ==> b.cost == 0.0
    ensures CostSum(log + [a]) == a.cost
  {
    if log == [] {
      assert log + [a] == [a];
    } else {
      assert (log + [a])[1..] == log[1..] + [a];
      assert log[0] in log;
      CostOfAppend(log[1..], a);
    }
  }

  lemma PrefixIsIncomplete(events: seq<Event>)
    requires StreamPrefix(events)
    ensures !CompleteStream(events)
  {
    assert |events| >= 2 ==> IsText(events[|events| - 1]);
  }

  /** A stream cut short is a beginning, and any other is complete. */
  predicate Obeys(s: StreamReport) {
    if s.cut.Some? then StreamPrefix(s.events) else CompleteStream(s.events)
  }

  lemma StreamFromObeys(r: Request, rep: Report, idleLimit: real, promptTokens: nat)
    requires rep.result.Arrived? ==> rep.result.k < |r.targets|
    requires forall a :: a in rep.log ==> a.cost == 0.0
    ensures Obeys(StreamFrom(r, rep, idleLimit, promptTokens))
  {
    if rep.result.Arrived? {
      var Arrived(k, n, _, stream, recording, breaker) := rep.result;
      var played := Play(stream, rep.world.now, r.deadline, idleLimit);
      if played.ending.Completes? {
        CostOfAppend(rep.log, SuccessRecord(r.targets[k], n, played.ending.usage, breaker));
      }
    }
  }

  /** For every script a stream obeys the protocol, and its completed cost is the sum over all
      attempts, unless the client leaves or an adapter crashes; then it shows a beginning of that
      and no last event. */
  lemma StreamsObeyTheProtocol(r: Request, script: Script, w: World, idleLimit: real, promptTokens: nat)
    requires Sane(r)
    ensures var s := RunStream(r, script, w, idleLimit, promptTokens);
      Obeys(s) && (CompleteStream(s.events) <==> s.cut.None?)
  {
    var rep, s := Walk(r, script, 0, 0, w), RunStream(r, script, w, idleLimit, promptTokens);
    WalkIsReported(r, script, 0, 0, w, rep);
    StreamFromObeys(r, rep, idleLimit, promptTokens);
    if s.cut.Some? {
      PrefixIsIncomplete(s.events);
    }
  }

  /** The texts a stream carries, in order. */
  function TextsOf(s: Stream): seq<string> {
    if s.Delta? then [s.text] + TextsOf(s.next) else []
  }

  lemma {:induction false} PlayShowsAPrefix(s: Stream, now: real, deadline: real, idleLimit: real)
    ensures var p := Play(s, now, deadline, idleLimit);
      && p.texts <= TextsOf(s)
      && (p.ending.Completes? ==> p.texts == TextsOf(s))
  {
    if s.Delta? {
      var idle := Min(idleLimit, deadline - (now + s.held));
      if idle > 0.0 && s.took < idle {
        PlayShowsAPrefix(s.next, now + s.held + s.took, deadline, idleLimit);
      }
    }
  }

  /** What a stream shows between its start and the event that ends it. */
  function Shown(s: StreamReport): seq<Event>
    requires s.events != [] && (s.cut.None? ==> |s.events| >= 2)
  {
    s.events[1..if s.cut.Some? then |s.events| else |s.events| - 1]
  }

  /** The stream after an arrival, in terms of what was played. */
  lemma StreamShowsPlayed(r: Request, rep: Report, idleLimit: real, promptTokens: nat)
    requires rep.result.Arrived? && rep.result.k < |r.targets|
    ensures var s := StreamFrom(r, rep, idleLimit, promptTokens);
      var played := Play(rep.result.stream, rep.world.now, r.deadline, idleLimit);
      && |s.events| >= 1 && (s.cut.None? ==> |s.events| >= 2)
      && s.events[0].Started? && s.events[0].model == r.targets[rep.result.k].id
      && Shown(s) == Deltas(played.texts) && s.world.calls == rep.world.calls
  {
  }

  lemma LastEvent(r: Request, rep: Report, idleLimit: real, promptTokens: nat)
    requires rep.result.Arrived? && rep.result.k < |r.targets|
    ensures var s := StreamFrom(r, rep, idleLimit, promptTokens);
      var played := Play(rep.result.stream, rep.world.now, r.deadline, idleLimit);
      && s.events != []
      && (s.events[|s.events| - 1].Completed? <==> played.ending.Completes?)
      && (s.events[|s.events| - 1].Completed? ==> s.cut.None?)
  {
    var played := Play(rep.result.stream, rep.world.now, r.deadline, idleLimit);
    var shown := [Started(r.targets[rep.result.k].id, rep.log != [])] + Deltas(played.texts);
    assert forall i :: 0 <= i < |shown| ==> !shown[i].Completed?;
  }

  /** The deltas of a stream are a beginning of the texts of the one that answered, and all of them
      if it completes. */
  predicate ShowsTexts(s: StreamReport, all: seq<string>)
    requires s.events != [] && (s.cut.None? ==> |s.events| >= 2)
  {
    && (exists n :: 0 <= n <= |all| && Shown(s) == Deltas(all[..n]))
    && (s.events[|s.events| - 1].Completed? ==> s.cut.None? && Shown(s) == Deltas(all))
  }

  lemma PrefixShown(s: StreamReport, all: seq<string>, texts: seq<string>)
    requires s.events != [] && (s.cut.None? ==> |s.events| >= 2)
    requires texts <= all && Shown(s) == Deltas(texts)
    requires s.events[|s.events| - 1].Completed? ==> s.cut.None? && texts == all
    ensures ShowsTexts(s, all)
  {
    assert texts == all[..|texts|];
  }

  /** All deltas come, in order, from the one stream that answered, and all of them if it
      completed; no provider is called after its first item. */
  lemma DeltasComeFromTheStartedModel(r: Request, script: Script, w: World, idleLimit: real, promptTokens: nat)
    requires Sane(r) && Walk(r, script, 0, 0, w).result.Arrived?
    ensures var rep := Walk(r, script, 0, 0, w);
      var s := RunStream(r, script, w, idleLimit, promptTokens);
      && rep.result.k < |r.targets| && |s.events| >= 1 && (s.cut.None? ==> |s.events| >= 2)
      && s.events[0].Started? && s.events[0].model == r.targets[rep.result.k].id
      && ShowsTexts(s, TextsOf(rep.result.stream)) && s.world.calls == rep.world.calls
  {
    DeltasFollow(r, Walk(r, script, 0, 0, w), idleLimit, promptTokens);
  }

  lemma DeltasFollow(r: Request, rep: Report, idleLimit: real, promptTokens: nat)
    requires rep.result.Arrived? && rep.result.k < |r.targets|
    ensures var s := StreamFrom(r, rep, idleLimit, promptTokens);
      && |s.events| >= 1 && (s.cut.None? ==> |s.events| >= 2)
      && s.events[0].Started? && s.events[0].model == r.targets[rep.result.k].id
      && ShowsTexts(s, TextsOf(rep.result.stream)) && s.world.calls == rep.world.calls
  {
    var played := Play(rep.result.stream, rep.world.now, r.deadline, idleLimit);
    PlayShowsAPrefix(rep.result.stream, rep.world.now, r.deadline, idleLimit);
    StreamShowsPlayed(r, rep, idleLimit, promptTokens);
    LastEvent(r, rep, idleLimit, promptTokens);
    PrefixShown(StreamFrom(r, rep, idleLimit, promptTokens), TextsOf(rep.result.stream), played.texts);
  }

  /** `StreamStarted.fallback_used` is set exactly when anything was skipped or failed before,
      which includes an earlier failure of the same model. */
  lemma StartedFallbackFlag(r: Request, script: Script, w: World, idleLimit: real, promptTokens: nat)
    requires Fine(r) && Walk(r, script, 0, 0, w).result.Arrived?
    ensures var rep := Walk(r, script, 0, 0, w);
      var s := RunStream(r, script, w, idleLimit, promptTokens);
      s.events != [] && s.events[0].Started?
      && (s.events[0].fallbackUsed <==> rep.result.k != 0 || rep.result.n >= 2)
  {
    var rep := Walk(r, script, 0, 0, w);
    RequestIsLogged(r, script, w);
    var full := FullLog(r, rep);
    ChainFollowsTargets(r, full);
    PosOfTarget(r.targets, rep.result.k);
    if |full| >= 2 {
      var a, b := full[|full| - 2], full[|full| - 1];
      assert ContinuesAt(r, full, |full| - 2);
      assert PosOf(r.targets, a.model) <= PosOf(r.targets, b.model) == rep.result.k;
    }
  }
}
