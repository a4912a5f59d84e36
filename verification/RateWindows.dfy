/** The token bucket told from the request times alone: it refuses a request exactly if allowing it
    would be one too many for some stretch of time that ends with it. */
module RateWindows {
  import opened Common
  import opened RateLimit

  /** What is gained between request i and the one before it. */
  function Gained(cfg: Config, times: seq<real>, i: nat): real
    requires 0 < i < |times|
  {
    (times[i] - times[i - 1]) * cfg.rate
  }

  /** The level that request i finds, from the levels before. */
  function LevelAt(cfg: Config, times: seq<real>, i: nat): real
    requires i < |times|
  {
    if i == 0 then cfg.burst as real
    else
      var before := LevelAt(cfg, times, i - 1);
      Min(cfg.burst as real, before - (if before >= 1.0 then 1.0 else 0.0) + Gained(cfg, times, i))
  }

  lemma OneMoreLevel(
      cfg: Config, b: Option<Bucket>, c: Option<Bucket>, at: real, now: real, gained: real, before: real, next: real)
    requires c == Some(Left(cfg, b, at)) && gained == (now - at) * cfg.rate && Level(cfg, b, at) == before
    requires next == Min(cfg.burst as real, before - (if before >= 1.0 then 1.0 else 0.0) + gained)
    ensures Level(cfg, c, now) == next
  {
  }

  lemma NextLevel(cfg: Config, times: seq<real>, i: nat, b: Option<Bucket>, c: Option<Bucket>)
    requires 0 < i < |times| && c == Some(Left(cfg, b, times[i - 1]))
    requires Level(cfg, b, times[i - 1]) == LevelAt(cfg, times, i - 1)
    ensures Level(cfg, c, times[i]) == LevelAt(cfg, times, i)
  {
    OneMoreLevel(
      cfg, b, c, times[i - 1], times[i], Gained(cfg, times, i), LevelAt(cfg, times, i - 1), LevelAt(cfg, times, i));
  }

  lemma {:induction false} LevelsAre(cfg: Config, times: seq<real>, i: nat)
    requires i < |times|
    ensures Level(cfg, After(cfg, times[..i]), times[i]) == LevelAt(cfg, times, i)
  {
    if i > 0 {
      LevelsAre(cfg, times, i - 1);
      AfterStep(cfg, times, i - 1);
      NextLevel(cfg, times, i, After(cfg, times[..i - 1]), After(cfg, times[..i]));
    }
  }

  // ------------------------------------------------------------------ the room of a stretch

  /** What is gained from request j to request i. */
  function GainedFrom(cfg: Config, times: seq<real>, j: nat, i: nat): real
    requires j <= i < |times|
  {
    if j == i then 0.0 else GainedFrom(cfg, times, j, i - 1) + Gained(cfg, times, i)
  }

  /** What the rate gives from one time to another. */
  predicate IsGain(gain: real, rate: real, a: real, b: real) {
    gain == (b - a) * rate
  }

  lemma NoTime(rate: real, a: real)
    ensures IsGain(0.0, rate, a, a)
  {
    assert a - a == 0.0;
  }

  lemma GainedIsGain(cfg: Config, times: seq<real>, i: nat)
    requires 0 < i < |times|
    ensures IsGain(Gained(cfg, times, i), cfg.rate, times[i - 1], times[i])
  {
  }

  lemma GainsAdd(rate: real, a: real, b: real, c: real, first: real, second: real)
    requires IsGain(first, rate, a, b) && IsGain(second, rate, b, c)
    ensures IsGain(first + second, rate, a, c)
  {
    Splits(rate, a, b, c);
  }

  lemma {:induction false} GainIsProduct(cfg: Config, times: seq<real>, j: nat, i: nat)
    requires j <= i < |times|
    ensures IsGain(GainedFrom(cfg, times, j, i), cfg.rate, times[j], times[i])
  {
    if j == i {
      NoTime(cfg.rate, times[i]);
    } else {
      GainIsProduct(cfg, times, j, i - 1);
      GainedIsGain(cfg, times, i);
      GainsAdd(cfg.rate, times[j], times[i - 1], times[i], GainedFrom(cfg, times, j, i - 1), Gained(cfg, times, i));
    }
  }

  lemma AllowedIffLevel(cfg: Config, times: seq<real>, i: nat)
    requires i < |times|
    ensures IsAllowed(cfg, After(cfg, times[..i]), times[i]) <==> LevelAt(cfg, times, i) >= 1.0
  {
    LevelsAre(cfg, times, i);
  }

  lemma CountStep(cfg: Config, times: seq<real>, j: nat, i: nat)
    requires j < i <= |times|
    ensures Count(cfg, times, j, i) == Count(cfg, times, j, i - 1) + if LevelAt(cfg, times, i - 1) >= 1.0 then 1 else 0
  {
    AllowedIffLevel(cfg, times, i - 1);
  }

  /** What the stretch from request j to request i still has room for. */
  function Room(cfg: Config, times: seq<real>, j: nat, i: nat): real
    requires j <= i < |times|
  {
    cfg.burst as real + GainedFrom(cfg, times, j, i) - Count(cfg, times, j, i) as real
  }

  lemma RoomStep(cfg: Config, times: seq<real>, j: nat, i: nat)
    requires j < i < |times|
    ensures Room(cfg, times, j, i) == Room(cfg, times, j, i - 1)
      - (if LevelAt(cfg, times, i - 1) >= 1.0 then 1.0 else 0.0) + Gained(cfg, times, i)
  {
    CountStep(cfg, times, j, i);
  }

  lemma WholeRoom(cfg: Config, times: seq<real>, i: nat)
    requires i < |times|
    ensures Room(cfg, times, i, i) == cfg.burst as real
  {
    assert Count(cfg, times, i, i) == 0;
  }

  /** The level is the least room of all stretches that end with the request. */
  lemma {:induction false} LevelIsLeastRoom(cfg: Config, times: seq<real>, i: nat) returns (at: nat)
    requires i < |times|
    ensures at <= i && LevelAt(cfg, times, i) == Room(cfg, times, at, i)
    ensures forall j :: 0 <= j <= i ==> LevelAt(cfg, times, i) <= Room(cfg, times, j, i)
  {
    WholeRoom(cfg, times, i);
    at := i;
    if i > 0 {
      var before := LevelIsLeastRoom(cfg, times, i - 1);
      RoomStep(cfg, times, before, i);
      if LevelAt(cfg, times, i) < cfg.burst as real {
        at := before;
      }
      forall j | 0 <= j < i ensures LevelAt(cfg, times, i) <= Room(cfg, times, j, i) {
        RoomStep(cfg, times, j, i);
      }
    }
  }

  /** With one request more, those allowed from request j on are within the burst and the gain. */
  predicate HasRoom(cfg: Config, times: seq<real>, j: nat, i: nat)
    requires j <= i < |times|
  {
    Count(cfg, times, j, i) as real + 1.0 <= cfg.burst as real + (times[i] - times[j]) * cfg.rate
  }

  lemma HasRoomIff(cfg: Config, times: seq<real>, j: nat, i: nat)
    requires j <= i < |times|
    ensures HasRoom(cfg, times, j, i) <==> Room(cfg, times, j, i) >= 1.0
  {
    GainIsProduct(cfg, times, j, i);
  }

  /** A request is allowed exactly if every stretch of time that ends with it and starts with a
      request has room for it. */
  lemma AllowedIffRoomThroughout(cfg: Config, times: seq<real>, i: nat)
    requires ValidConfig(cfg) && i < |times|
    ensures Answer(cfg, times, i).allowed <==> forall j :: 0 <= j <= i ==> HasRoom(cfg, times, j, i)
  {
    var at := LevelIsLeastRoom(cfg, times, i);
    AllowedIffLevel(cfg, times, i);
    forall j | 0 <= j <= i ensures HasRoom(cfg, times, j, i) <==> Room(cfg, times, j, i) >= 1.0 {
      HasRoomIff(cfg, times, j, i);
    }
  }

  /** The count is of the requests that were allowed. */
  lemma CountIsOfAllowed(cfg: Config, times: seq<real>, i: nat, j: nat)
    requires ValidConfig(cfg) && i <= j < |times|
    ensures Count(cfg, times, i, i) == 0
    ensures Count(cfg, times, i, j + 1) == Count(cfg, times, i, j) + if Answer(cfg, times, j).allowed then 1 else 0
  {
  }
}
