/** Summaries and windows over any sequential run of turns and of summaries that succeed or fail. */
module MemoryRuns {
  import opened Common
  import opened Memory

  /** `folds` are the messages that each successful summary accounts for: those its transcript was
      made of before it was cut to its limit. */
  datatype State = State(conv: Conversation, folds: seq<seq<Message>>)

  datatype Event = Add(m: Message) | Summarise(ask: Summariser)

  const START := State(Conversation([], None, None), [])

  /** Message numbers come from the database's rising sequence. */
  predicate Enabled(s: State, e: Event) {
    e.Add? ==> e.m.seqNo >= 1 && forall i :: 0 <= i < |s.conv.messages| ==> s.conv.messages[i].seqNo < e.m.seqNo
  }

  function Next(s: State, e: Event): State {
    match e
    case Add(m) => s.(conv := s.conv.(messages := s.conv.messages + [m]))
    case Summarise(ask) =>
      var older := Older(s.conv);
      if older != [] && ask(Transcript(older)).Some? then State(AfterSummary(s.conv, ask), s.folds + [older])
      else s.(conv := AfterSummary(s.conv, ask))
  }

  ghost predicate IsRun(states: seq<State>, events: seq<Event>) {
    && |states| == |events| + 1 && states[0] == START
    && forall i :: 0 <= i < |events| ==> Enabled(states[i], events[i]) && states[i + 1] == Next(states[i], events[i])
  }

  function Flat(folds: seq<seq<Message>>): seq<Message> {
    if folds == [] then [] else Flat(folds[..|folds| - 1]) + folds[|folds| - 1]
  }

  predicate Rising(messages: seq<Message>) {
    && (forall i :: 0 <= i < |messages| ==> messages[i].seqNo >= 1)
    && (forall i, j :: 0 <= i < j < |messages| ==> messages[i].seqNo < messages[j].seqNo)
  }

  lemma {:induction false} CompleteRises(messages: seq<Message>)
    requires Rising(messages)
    ensures Rising(Complete(messages))
    ensures forall m :: m in Complete(messages) ==> m in messages
  {
    if messages != [] {
      var n := |messages| - 1;
      CompleteRises(messages[..n]);
      assert messages == messages[..n] + [messages[n]];
      forall m | m in Complete(messages[..n]) ensures m.seqNo < messages[n].seqNo {
        var i :| 0 <= i < n && messages[..n][i] == m;
        assert messages[i] == m;
      }
      forall i | 0 <= i < |Complete(messages[..n])| ensures Complete(messages[..n])[i].seqNo < messages[n].seqNo {
        assert Complete(messages[..n])[i] in Complete(messages[..n]);
      }
    }
  }

  /** What is numbered above a bound is a suffix. */
  lemma {:induction false} AboveIsSuffix(messages: seq<Message>, bound: nat, k: nat)
    requires k <= |messages|
    requires forall i :: 0 <= i < k ==> messages[i].seqNo <= bound
    requires forall i :: k <= i < |messages| ==> messages[i].seqNo > bound
    ensures Above(messages, bound) == messages[k..]
  {
    if messages != [] {
      var n := |messages| - 1;
      if k <= n {
        AboveIsSuffix(messages[..n], bound, k);
        assert messages[k..] == messages[..n][k..] + [messages[n]];
      } else {
        AboveIsSuffix(messages[..n], bound, n);
      }
    }
  }

  predicate NoEmptyFold(folds: seq<seq<Message>>) {
    forall f :: 0 <= f < |folds| ==> folds[f] != []
  }

  /** What has been folded is a prefix of the complete messages, up to the stored number, and at
      least the newest 12 are left out of it. */
  predicate Inv(s: State) {
    var complete, done := Complete(s.conv.messages), Flat(s.folds);
    && Rising(s.conv.messages) && Rising(complete)
    && |done| <= |complete| && done == complete[..|done|]
    && (s.conv.upto.None? ==> done == [])
    && (s.conv.upto.Some? ==>
          done != [] && s.conv.upto.value == done[|done| - 1].seqNo && |done| + SUMMARY_TRIGGER <= |complete|)
    && (s.conv.summary.Some? <==> s.conv.upto.Some?)
    && NoEmptyFold(s.folds)
  }

  lemma UnfoldedIsRest(s: State)
    requires Inv(s)
    ensures Unfolded(s.conv) == Complete(s.conv.messages)[|Flat(s.folds)|..]
  {
    var complete, k := Complete(s.conv.messages), |Flat(s.folds)|;
    var bound := if s.conv.upto.Some? then s.conv.upto.value else 0;
    if s.conv.upto.Some? {
      assert complete[k - 1] == Flat(s.folds)[k - 1];
    }
    AboveIsSuffix(complete, bound, k);
  }

  lemma AddKeepsInv(s: State, m: Message)
    requires Inv(s) && Enabled(s, Add(m))
    ensures Inv(Next(s, Add(m)))
  {
    var longer := s.conv.messages + [m];
    assert longer[..|s.conv.messages|] == s.conv.messages;
    CompleteRises(longer);
    assert Complete(longer)[..|Flat(s.folds)|] == Complete(s.conv.messages)[..|Flat(s.folds)|];
  }

  lemma FlatMore(folds: seq<seq<Message>>, older: seq<Message>)
    ensures Flat(folds + [older]) == Flat(folds) + older
  {
    assert (folds + [older])[..|folds|] == folds;
  }

  /** A successful summary folds everything but the newest 12. */
  lemma OlderIsNext(s: State)
    requires Inv(s) && Older(s.conv) != []
    ensures var complete, done, older := Complete(s.conv.messages), Flat(s.folds), Older(s.conv);
      && |done| + |older| == |complete| - SUMMARY_TRIGGER
      && done + older == complete[..|complete| - SUMMARY_TRIGGER]
      && older[|older| - 1] == complete[|complete| - SUMMARY_TRIGGER - 1]
  {
    UnfoldedIsRest(s);
    var complete, done := Complete(s.conv.messages), Flat(s.folds);
    assert Older(s.conv) == complete[|done|..][..|complete| - |done| - SUMMARY_TRIGGER];
  }

  /** What a successful summary changes. */
  predicate HasFolded(s: State, t: State, older: seq<Message>)
    requires older != []
  {
    && t.conv.messages == s.conv.messages && t.conv.upto == Some(older[|older| - 1].seqNo)
    && t.conv.summary.Some? && t.folds == s.folds + [older]
  }

  lemma SummariseFolds(s: State, ask: Summariser)
    requires Older(s.conv) != [] && ask(Transcript(Older(s.conv))).Some?
    ensures HasFolded(s, Next(s, Summarise(ask)), Older(s.conv))
  {
  }

  lemma FoldKeepsInv(s: State, t: State)
    requires Inv(s) && Older(s.conv) != [] && HasFolded(s, t, Older(s.conv))
    ensures Inv(t)
  {
    OlderIsNext(s);
    FlatMore(s.folds, Older(s.conv));
    var complete := Complete(s.conv.messages);
    var k := |complete| - SUMMARY_TRIGGER;
    assert Flat(t.folds) == complete[..k] && complete[..k][k - 1] == complete[k - 1];
  }

  lemma SummariseKeepsInv(s: State, ask: Summariser)
    requires Inv(s)
    ensures Inv(Next(s, Summarise(ask)))
  {
    if Older(s.conv) != [] && ask(Transcript(Older(s.conv))).Some? {
      SummariseFolds(s, ask);
      FoldKeepsInv(s, Next(s, Summarise(ask)));
    }
  }

  lemma {:induction false} InvHolds(states: seq<State>, events: seq<Event>, n: nat)
    requires IsRun(states, events) && n < |states|
    ensures Inv(states[n])
  {
    if n > 0 {
      InvHolds(states, events, n - 1);
      match events[n - 1]
      case Add(m) => AddKeepsInv(states[n - 1], m);
      case Summarise(ask) => SummariseKeepsInv(states[n - 1], ask);
    }
  }

  // ------------------------------------------------------------------ over every run

  predicate Reaches(a: Option<nat>, b: Option<nat>) {
    a.None? || (b.Some? && a.value <= b.value)
  }

  /** The later state has the folds of the earlier, reaches as far, and keeps a summary. */
  predicate Follows(a: State, b: State) {
    a.folds <= b.folds && Reaches(a.conv.upto, b.conv.upto) && (HasSummary(a.conv) ==> HasSummary(b.conv))
  }

  lemma FollowsTransitive(a: State, b: State, c: State)
    requires Follows(a, b) && Follows(b, c)
    ensures Follows(a, c)
  {
  }

  lemma StepFollows(s: State, e: Event)
    requires Inv(s)
    ensures Follows(s, Next(s, e))
  {
    var older := Older(s.conv);
    if e.Summarise? && older != [] && s.conv.upto.Some? {
      OlderIsNext(s);
      var complete, done := Complete(s.conv.messages), Flat(s.folds);
      assert complete[|done| - 1] == done[|done| - 1];
    }
  }

  lemma RunStepFollows(states: seq<State>, events: seq<Event>, n: nat)
    requires IsRun(states, events) && n < |events|
    ensures Follows(states[n], states[n + 1])
  {
    InvHolds(states, events, n);
    assert states[n + 1] == Next(states[n], events[n]);
    StepFollows(states[n], events[n]);
  }

  lemma {:induction false} FollowsThroughout(states: seq<State>, m: nat, n: nat)
    requires m <= n < |states|
    requires forall i :: m <= i < n ==> Follows(states[i], states[i + 1])
    ensures Follows(states[m], states[n])
    decreases n - m
  {
    if m < n {
      FollowsThroughout(states, m, n - 1);
      assert Follows(states[n - 1], states[n - 1 + 1]);
      FollowsTransitive(states[m], states[n - 1], states[n]);
    }
  }

  /** The stored number never falls, folds stay, and a conversation with a summary keeps one. */
  lemma SummaryNeverGoesBack(states: seq<State>, events: seq<Event>, m: nat, n: nat)
    requires IsRun(states, events) && m <= n < |states|
    ensures Follows(states[m], states[n])
  {
    forall i | m <= i < n ensures Follows(states[i], states[i + 1]) {
      RunStepFollows(states, events, i);
    }
    FollowsThroughout(states, m, n);
  }

  /** What the successful summaries account for, end to end, is the complete messages from the first
      on: each at most once, in order, with no gap, and never one of the newest 12. */
  lemma FoldedOnceInOrder(states: seq<State>, events: seq<Event>, n: nat)
    requires IsRun(states, events) && n < |states|
    ensures var complete, done := Complete(states[n].conv.messages), Flat(states[n].folds);
      && |done| <= |complete| && done == complete[..|done|]
      && (forall i, j :: 0 <= i < j < |done| ==> done[i] != done[j])
      && (forall i :: 0 <= i < |complete| && i >= |complete| - SUMMARY_TRIGGER ==> complete[i] !in done)
  {
    InvHolds(states, events, n);
    var complete, done := Complete(states[n].conv.messages), Flat(states[n].folds);
    forall i, j | 0 <= i < j < |done| ensures done[i] != done[j] {
      assert done[i] == complete[i] && done[j] == complete[j];
    }
    forall i | 0 <= i < |complete| && i >= |complete| - SUMMARY_TRIGGER ensures complete[i] !in done {
      forall j | 0 <= j < |done| ensures done[j] != complete[i] {
        assert done[j] == complete[j];
      }
    }
  }

  lemma SuffixIsNotFolded(s: State, window: seq<Message>, m: Message)
    requires Inv(s) && m in window
    requires |window| <= |Unfolded(s.conv)| && window == Unfolded(s.conv)[|Unfolded(s.conv)| - |window|..]
    ensures m !in Flat(s.folds)
  {
    UnfoldedIsRest(s);
    var complete, done := Complete(s.conv.messages), Flat(s.folds);
    var i :| 0 <= i < |window| && window[i] == m;
    var at := |complete| - |window| + i;
    assert complete[at] == m;
    forall j | 0 <= j < |done| ensures done[j] != m {
      assert done[j] == complete[j];
    }
  }

  /** When a summary is sent, nothing in the window has been summarised: the window is the longest
      run of the newest messages not yet folded, within both limits. */
  lemma NothingIsSentTwice(states: seq<State>, events: seq<Event>, n: nat, most: nat, budget: nat)
    requires IsRun(states, events) && n < |states| && HasSummary(states[n].conv)
    ensures var window, rest := WindowOf(states[n].conv, most, budget), Unfolded(states[n].conv);
      && (forall m :: m in window ==> m !in Flat(states[n].folds))
      && |window| <= |rest| && window == rest[|rest| - |window|..]
      && (most > 0 && budget > 0 ==>
            forall k :: 0 <= k <= |rest| ==> (Fits(rest, |rest|, k, most, budget) <==> k <= |window|))
  {
    InvHolds(states, events, n);
    var window, rest := WindowOf(states[n].conv, most, budget), Unfolded(states[n].conv);
    assert Eligible(states[n].conv) == rest;
    WindowIsLongest(rest, most, budget);
    if most == 0 || budget == 0 {
      assert rest[|rest|..] == [];
    }
    forall m | m in window ensures m !in Flat(states[n].folds) {
      SuffixIsNotFolded(states[n], window, m);
    }
  }

  // ------------------------------------------------------------------ what the summariser sees

  /** The message was whole in the transcript of a successful summary. */
  predicate SeenIn(folds: seq<seq<Message>>, m: Message) {
    exists f, i :: 0 <= f < |folds| && 0 <= i < |folds[f]| && folds[f][i] == m && Seen(folds[f], i)
  }

  lemma {:induction false} FlatAt(folds: seq<seq<Message>>, f: nat, i: nat)
    requires f < |folds| && i < |folds[f]|
    ensures |Flat(folds[..f])| + |folds[f]| <= |Flat(folds)|
    ensures Flat(folds)[|Flat(folds[..f])| + i] == folds[f][i]
  {
    var n := |folds| - 1;
    if f < n {
      FlatAt(folds[..n], f, i);
      assert folds[..n][..f] == folds[..f];
    }
  }

  lemma EarlierEndsBefore(folds: seq<seq<Message>>, f: nat, i: nat, g: nat)
    requires f < g <= |folds| && i < |folds[f]|
    ensures |Flat(folds[..f])| + i < |Flat(folds[..g])|
  {
    FlatAt(folds[..g], f, i);
    assert folds[..g][..f] == folds[..f];
  }

  /** A message has one place in the folds. */
  lemma PlaceIsUnique(folds: seq<seq<Message>>, f: nat, i: nat, g: nat, j: nat)
    requires Rising(Flat(folds))
    requires f < |folds| && i < |folds[f]| && g < |folds| && j < |folds[g]| && folds[f][i] == folds[g][j]
    ensures f == g && i == j
  {
    FlatAt(folds, f, i);
    FlatAt(folds, g, j);
    if f < g {
      EarlierEndsBefore(folds, f, i, g);
    } else if g < f {
      EarlierEndsBefore(folds, g, j, f);
    }
  }

  lemma {:induction false} PlaceOf(folds: seq<seq<Message>>, k: nat) returns (f: nat, i: nat)
    requires k < |Flat(folds)|
    ensures f < |folds| && i < |folds[f]| && folds[f][i] == Flat(folds)[k]
  {
    var n := |folds| - 1;
    if k < |Flat(folds[..n])| {
      f, i := PlaceOf(folds[..n], k);
    } else {
      f, i := n, k - |Flat(folds[..n])|;
    }
  }

  lemma SeenAtItsPlace(folds: seq<seq<Message>>, f: nat, i: nat)
    requires Rising(Flat(folds)) && f < |folds| && i < |folds[f]|
    ensures SeenIn(folds, folds[f][i]) <==> Seen(folds[f], i)
  {
    if SeenIn(folds, folds[f][i]) {
      var g, j :| 0 <= g < |folds| && 0 <= j < |folds[g]| && folds[g][j] == folds[f][i] && Seen(folds[g], j);
      PlaceIsUnique(folds, f, i, g, j);
    }
  }

  lemma FoldedRises(s: State)
    requires Inv(s)
    ensures Rising(Flat(s.folds))
  {
    var complete, done := Complete(s.conv.messages), Flat(s.folds);
    assert forall i :: 0 <= i < |done| ==> done[i] == complete[i];
  }

  /** A message that a summary accounts for was whole in a transcript exactly if, in its own
      summary's, its line and those before it are within the limit. */
  lemma SeenIffItFits(states: seq<State>, events: seq<Event>, n: nat, f: nat, i: nat)
    requires IsRun(states, events) && n < |states|
    requires f < |states[n].folds| && i < |states[n].folds[f]|
    ensures var folds := states[n].folds;
      SeenIn(folds, folds[f][i]) <==> |Head(folds[f], i + 1)| <= TRANSCRIPT_LIMIT
  {
    InvHolds(states, events, n);
    FoldedRises(states[n]);
    SeenAtItsPlace(states[n].folds, f, i);
    SeenIffWithin(states[n].folds[f], i);
  }

  /** A complete message is numbered up to the summary's number exactly if it is folded. */
  lemma FoldedIffNumbered(s: State, m: Message)
    requires Inv(s) && m in Complete(s.conv.messages)
    ensures m in Flat(s.folds) <==> s.conv.upto.Some? && m.seqNo <= s.conv.upto.value
  {
    var complete, done := Complete(s.conv.messages), Flat(s.folds);
    var k :| 0 <= k < |complete| && complete[k] == m;
    if k < |done| {
      assert done[k] == m && done[|done| - 1] == complete[|done| - 1];
    } else {
      assert s.conv.upto.Some? ==> done[|done| - 1] == complete[|done| - 1];
      assert forall i :: 0 <= i < |done| ==> done[i] == complete[i];
    }
  }

  /** The whole transcript of a summary is within the limit: known before the call. */
  predicate FitsWhole(older: seq<Message>) {
    |Join('\n', Lines(older))| <= TRANSCRIPT_LIMIT
  }

  predicate AllFit(folds: seq<seq<Message>>) {
    forall f :: 0 <= f < |folds| ==> FitsWhole(folds[f])
  }

  /** Every complete message up to the summary's number was whole in a transcript. */
  predicate AllSeen(s: State) {
    forall m :: m in Complete(s.conv.messages) && s.conv.upto.Some? && m.seqNo <= s.conv.upto.value ==> SeenIn(s.folds, m)
  }

  lemma FittingFoldIsSeen(fold: seq<Message>, i: nat)
    requires FitsWhole(fold) && i < |fold|
    ensures Seen(fold, i)
  {
    HeadBegins(fold, i + 1);
    SeenIffWithin(fold, i);
  }

  lemma FittingFoldsAreSeen(folds: seq<seq<Message>>, m: Message)
    requires AllFit(folds) && m in Flat(folds)
    ensures SeenIn(folds, m)
  {
    var k :| 0 <= k < |Flat(folds)| && Flat(folds)[k] == m;
    var f, i := PlaceOf(folds, k);
    FittingFoldIsSeen(folds[f], i);
  }

  /** In every run nothing that a summary replaces was lost to the summariser exactly if every
      summary's transcript was within the limit. */
  lemma AllSeenIffAllFit(states: seq<State>, events: seq<Event>, n: nat)
    requires IsRun(states, events) && n < |states|
    ensures AllSeen(states[n]) <==> AllFit(states[n].folds)
  {
    InvHolds(states, events, n);
    var s := states[n];
    var complete := Complete(s.conv.messages);
    if AllFit(s.folds) {
      forall m | m in complete && s.conv.upto.Some? && m.seqNo <= s.conv.upto.value ensures SeenIn(s.folds, m) {
        FoldedIffNumbered(s, m);
        FittingFoldsAreSeen(s.folds, m);
      }
    }
    if AllSeen(s) {
      forall f | 0 <= f < |s.folds| ensures FitsWhole(s.folds[f]) {
        SeenFoldFits(s, f);
      }
    }
  }

  lemma PlaceIsFolded(s: State, f: nat, i: nat)
    requires Inv(s) && f < |s.folds| && i < |s.folds[f]|
    ensures var m := s.folds[f][i];
      m in Flat(s.folds) && m in Complete(s.conv.messages) && s.conv.upto.Some? && m.seqNo <= s.conv.upto.value
  {
    FlatAt(s.folds, f, i);
    var at := |Flat(s.folds[..f])| + i;
    assert Complete(s.conv.messages)[at] == Flat(s.folds)[at];
    FoldedIffNumbered(s, s.folds[f][i]);
  }

  lemma {:induction false} SeenFoldFits(s: State, f: nat)
    requires Inv(s) && AllSeen(s) && f < |s.folds|
    ensures FitsWhole(s.folds[f])
  {
    var fold := s.folds[f];
    var last := |fold| - 1;
    PlaceIsFolded(s, f, last);
    FoldedRises(s);
    SeenAtItsPlace(s.folds, f, last);
    SeenIffWithin(fold, last);
    assert fold[..last + 1] == fold;
  }

  /** A message cut off by its summary's limit is lost for good: no transcript ever has it whole,
      and no window once there is a summary. */
  lemma {:induction false} CutOffIsLostForGood(
      states: seq<State>, events: seq<Event>, m: nat, n: nat, f: nat, i: nat, most: nat, budget: nat)
    requires IsRun(states, events) && m <= n < |states| && HasSummary(states[m].conv)
    requires f < |states[m].folds| && i < |states[m].folds[f]|
    requires |Head(states[m].folds[f], i + 1)| > TRANSCRIPT_LIMIT
    ensures !SeenIn(states[n].folds, states[m].folds[f][i])
    ensures states[m].folds[f][i] !in WindowOf(states[n].conv, most, budget)
  {
    SummaryNeverGoesBack(states, events, m, n);
    assert states[n].folds[f] == states[m].folds[f];
    SeenIffItFits(states, events, n, f, i);
    NothingIsSentTwice(states, events, n, most, budget);
    InvHolds(states, events, n);
    PlaceIsFolded(states[n], f, i);
  }

  // ------------------------------------------------------------------ a lost answer

  lemma OneStepMore(states: seq<State>, events: seq<Event>, e: Event) returns (more: seq<State>)
    requires IsRun(states, events) && Enabled(states[|events|], e)
    ensures IsRun(more, events + [e]) && more[|events| + 1] == Next(states[|events|], e)
  {
    more := states + [Next(states[|events|], e)];
  }

  /** Any messages with rising numbers, added one by one. */
  lemma {:induction false} Written(messages: seq<Message>) returns (states: seq<State>, events: seq<Event>)
    requires Rising(messages)
    ensures IsRun(states, events) && states[|events|] == State(Conversation(messages, None, None), [])
  {
    if messages == [] {
      states, events := [START], [];
    } else {
      var n := |messages| - 1;
      states, events := Written(messages[..n]);
      states := OneStepMore(states, events, Add(messages[n]));
      events := events + [Add(messages[n])];
      assert messages[..n] + [messages[n]] == messages;
    }
  }

  lemma {:induction false} AllComplete(messages: seq<Message>)
    requires forall i :: 0 <= i < |messages| ==> messages[i].complete
    ensures Complete(messages) == messages
  {
    if messages != [] {
      var n := |messages| - 1;
      AllComplete(messages[..n]);
      assert messages[n].complete && messages[..n] + [messages[n]] == messages;
    }
  }

  /** What seven turns leave to fold: the first question and its answer. */
  lemma FirstTurnIsOlder(messages: seq<Message>)
    requires |messages| == SUMMARY_TRIGGER + 2 && Rising(messages)
    requires forall i :: 0 <= i < |messages| ==> messages[i].complete
    ensures Older(Conversation(messages, None, None)) == messages[..2]
  {
    AllComplete(messages);
    AboveIsSuffix(messages, 0, 0);
  }

  lemma LongFirstLine(older: seq<Message>)
    requires |older| == 2 && |Line(older[0])| >= TRANSCRIPT_LIMIT
    ensures Transcript(older) == Line(older[0])[..TRANSCRIPT_LIMIT] && |Head(older, 2)| > TRANSCRIPT_LIMIT
  {
    HeadMore(older, 0);
    HeadMore(older, 1);
    HeadBegins(older, 1);
    assert older[..2] == older;
  }

  /** Seven turns whose first question fills the transcript: the summary that follows accounts for
      its answer, which no summariser has seen. */
  lemma FirstAnswerIsLost(messages: seq<Message>, ask: Summariser) returns (states: seq<State>, events: seq<Event>)
    requires |messages| == SUMMARY_TRIGGER + 2 && Rising(messages)
    requires forall i :: 0 <= i < |messages| ==> messages[i].complete
    requires |Line(messages[0])| >= TRANSCRIPT_LIMIT && ask(Line(messages[0])[..TRANSCRIPT_LIMIT]).Some?
    ensures IsRun(states, events)
    ensures var s := states[|events|];
      && s.conv.messages == messages && s.conv.upto == Some(messages[1].seqNo)
      && messages[1] in Flat(s.folds) && !SeenIn(s.folds, messages[1])
  {
    states, events := Written(messages);
    FirstTurnIsOlder(messages);
    LongFirstLine(messages[..2]);
    var before := states[|events|];
    states := OneStepMore(states, events, Summarise(ask));
    events := events + [Summarise(ask)];
    FirstFold(before, messages, ask);
    SeenIffItFits(states, events, |events|, 0, 1);
  }

  lemma FirstFold(s: State, messages: seq<Message>, ask: Summariser)
    requires |messages| >= 2 && s == State(Conversation(messages, None, None), [])
    requires Older(s.conv) == messages[..2] && ask(Transcript(messages[..2])).Some?
    ensures var t := Next(s, Summarise(ask));
      && t.conv.messages == messages && t.conv.upto == Some(messages[1].seqNo)
      && t.folds == [messages[..2]] && t.folds[0][1] == messages[1] && messages[1] in Flat(t.folds)
  {
    FlatMore([], messages[..2]);
    assert [] + [messages[..2]] == [messages[..2]] && messages[..2][1] == messages[1];
  }
}
