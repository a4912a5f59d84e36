/**
  The circuit breaker of `gateway/resilience.py`, and what its three fields mean in terms of
  everything that has happened to it.
 */
module Resilience {
  import opened Common

  datatype Config = Config(threshold: int, cooldown: real)

  datatype Breaker = Breaker(failures: nat, openedAt: Option<real>, probeInFlight: bool)

  datatype BreakerState = Closed | Open | HalfOpen

  const NEW := Breaker(0, None, false)

  function StateAt(cfg: Config, b: Breaker, now: real): BreakerState {
    if b.openedAt.None? then Closed
    else if now - b.openedAt.value >= cfg.cooldown then HalfOpen
    else Open
  }

  predicate Admits(cfg: Config, b: Breaker, now: real) {
    var state := StateAt(cfg, b, now);
    state.Closed? || (state.HalfOpen? && !b.probeInFlight)
  }

  function AfterAllow(cfg: Config, b: Breaker, now: real): Breaker {
    if StateAt(cfg, b, now).HalfOpen? then b.(probeInFlight := true) else b
  }

  function AfterFailure(cfg: Config, b: Breaker, now: real): Breaker {
    Breaker(b.failures + 1,
            if b.openedAt.Some? || b.failures + 1 >= cfg.threshold then Some(now) else None,
            false)
  }

  class CircuitBreaker {
    const cfg: Config
    var failures: nat
    var openedAt: Option<real>
    var probeInFlight: bool

    function Value(): Breaker
      reads this
    {
      Breaker(failures, openedAt, probeInFlight)
    }

    constructor (cfg: Config)
      ensures this.cfg == cfg && Value() == NEW
    {
      this.cfg := cfg;
      failures, openedAt, probeInFlight := 0, None, false;
    }

    method State(now: real) returns (state: BreakerState)
      ensures state == StateAt(cfg, Value(), now)
    {
      if openedAt == None {
        return Closed;
      }
      if now - openedAt.value >= cfg.cooldown {
        return HalfOpen;
      }
      return Open;
    }

    method Allow(now: real) returns (granted: bool)
      modifies this`probeInFlight
      ensures granted <==> Admits(cfg, old(Value()), now)
      ensures Value() == AfterAllow(cfg, old(Value()), now)
    {
      var state := State(now);
      if state == Closed {
        return true;
      }
      if state == HalfOpen && !probeInFlight {
        probeInFlight := true;
        return true;
      }
      return false;
    }

    method RecordSuccess()
      modifies this
      ensures Value() == NEW
    {
      failures := 0;
      openedAt := None;
      probeInFlight := false;
    }

    method RecordFailure(now: real)
      modifies this
      ensures Value() == AfterFailure(cfg, old(Value()), now)
    {
      probeInFlight := false;
      failures := failures + 1;
      if openedAt != None || failures >= cfg.threshold {
        openedAt := Some(now);
      }
    }
  }

  // ------------------------------------------------------------------ histories

  datatype Op = Asked(at: real) | Succeeded | FailedAt(at: real)

  predicate IsRecord(op: Op) {
    !op.Asked?
  }

  function Apply(cfg: Config, b: Breaker, op: Op): Breaker {
    match op
    case Asked(at) => AfterAllow(cfg, b, at)
    case Succeeded => NEW
    case FailedAt(at) => AfterFailure(cfg, b, at)
  }

  function Replay(cfg: Config, h: seq<Op>): Breaker {
    if h == [] then NEW else Apply(cfg, Replay(cfg, h[..|h| - 1]), h[|h| - 1])
  }

  /** The length of the run of failures since the last success. */
  function FailureRun(h: seq<Op>): nat {
    if h == [] then 0
    else
      var before := FailureRun(h[..|h| - 1]);
      match h[|h| - 1]
      case Asked(_) => before
      case Succeeded => 0
      case FailedAt(_) => before + 1
  }

  function LastFailure(h: seq<Op>): real {
    if h == [] then 0.0
    else if h[|h| - 1].FailedAt? then h[|h| - 1].at
    else LastFailure(h[..|h| - 1])
  }

  predicate Tripped(cfg: Config, h: seq<Op>) {
    FailureRun(h) >= 1 && FailureRun(h) >= cfg.threshold
  }

  /** The request at position i was made with the breaker tripped and cooled down. */
  predicate ProbeAt(cfg: Config, h: seq<Op>, i: nat)
    requires i < |h|
  {
    h[i].Asked? && Tripped(cfg, h[..i]) && h[i].at - LastFailure(h[..i]) >= cfg.cooldown
  }

  predicate NoRecordFrom(h: seq<Op>, i: nat)
  {
    forall j :: i <= j < |h| ==> !IsRecord(h[j])
  }

  /** A probe has been let through and nothing has been recorded since. */
  predicate ProbeOut(cfg: Config, h: seq<Op>) {
    exists i :: 0 <= i < |h| && NoRecordFrom(h, i) && ProbeAt(cfg, h, i)
  }

  lemma ProbeOutStep(cfg: Config, h: seq<Op>, op: Op)
    ensures ProbeOut(cfg, h + [op]) <==>
      !IsRecord(op) && (ProbeOut(cfg, h) || ProbeAt(cfg, h + [op], |h|))
  {
    var longer := h + [op];
    assert forall i :: 0 <= i <= |h| ==> longer[..i] == h[..i];
    assert forall j :: 0 <= j < |h| ==> longer[j] == h[j];
    forall i | 0 <= i < |h| && NoRecordFrom(longer, i) ensures NoRecordFrom(h, i) {
      assert forall j :: i <= j < |h| ==> h[j] == longer[j] && !IsRecord(longer[j]);
    }
    assert forall i :: 0 <= i < |h| && NoRecordFrom(h, i) && !IsRecord(op) ==> NoRecordFrom(longer, i);
    assert forall i :: 0 <= i < |h| ==> ProbeAt(cfg, longer, i) == ProbeAt(cfg, h, i);
    if !IsRecord(op) && ProbeAt(cfg, longer, |h|) {
      assert NoRecordFrom(longer, |h|);
    }
    if ProbeOut(cfg, longer) {
      var i :| 0 <= i < |longer| && NoRecordFrom(longer, i) && ProbeAt(cfg, longer, i);
      assert !IsRecord(longer[|h|]);
    }
  }

  /** The three fields after any history: the run of failures since the last success, the time
      of the last failure if that run reached the threshold, and whether a probe is out. */
  lemma {:induction false} FieldsFollowHistory(cfg: Config, h: seq<Op>)
    ensures Replay(cfg, h) ==
      Breaker(FailureRun(h), if Tripped(cfg, h) then Some(LastFailure(h)) else None, ProbeOut(cfg, h))
  {
    if h != [] {
      var before, op := h[..|h| - 1], h[|h| - 1];
      FieldsFollowHistory(cfg, before);
      ProbeOutStep(cfg, before, op);
      assert h == before + [op] && h[..|before|] == before;
    }
  }

  /** A request is let through exactly when the breaker is not tripped, or it has cooled down
      and no probe is out. */
  lemma AdmissionRule(cfg: Config, h: seq<Op>, now: real)
    ensures Admits(cfg, Replay(cfg, h), now) <==>
      !Tripped(cfg, h) || (now - LastFailure(h) >= cfg.cooldown && !ProbeOut(cfg, h))
    ensures StateAt(cfg, Replay(cfg, h), now) == Closed <==> !Tripped(cfg, h)
  {
    FieldsFollowHistory(cfg, h);
  }

  /** Once a probe has been let through, nothing else is until a success or failure is
      recorded, however much time passes: a probe whose outcome is never recorded blocks for
      good. */
  lemma {:induction false} ProbeBlocksUntilRecorded(cfg: Config, h: seq<Op>, later: seq<Op>, now: real)
    requires Tripped(cfg, h) && ProbeOut(cfg, h)
    requires forall i :: 0 <= i < |later| ==> !IsRecord(later[i])
    ensures Tripped(cfg, h + later) && ProbeOut(cfg, h + later)
    ensures !Admits(cfg, Replay(cfg, h + later), now)
  {
    if later == [] {
      assert h + later == h;
    } else {
      var n := |later| - 1;
      ProbeBlocksUntilRecorded(cfg, h, later[..n], now);
      assert h + later == h + later[..n] + [later[n]];
      assert (h + later)[..|h + later| - 1] == h + later[..n];
      ProbeOutStep(cfg, h + later[..n], later[n]);
    }
    AdmissionRule(cfg, h + later, now);
  }

  /** A recorded success re-admits at once; a recorded failure of a tripped breaker re-admits
      one probe, exactly when the cooldown has passed again. */
  lemma RecordingReleasesProbe(cfg: Config, h: seq<Op>, at: real, now: real)
    requires Tripped(cfg, h)
    ensures Admits(cfg, Replay(cfg, h + [Succeeded]), now)
    ensures Admits(cfg, Replay(cfg, h + [FailedAt(at)]), now) <==> now - at >= cfg.cooldown
  {
    assert (h + [Succeeded])[..|h|] == h && (h + [FailedAt(at)])[..|h|] == h;
    ProbeOutStep(cfg, h, FailedAt(at));
    AdmissionRule(cfg, h + [Succeeded], now);
    AdmissionRule(cfg, h + [FailedAt(at)], now);
  }
}
