/** What a window holds and what a summary folds, told from a conversation's messages alone. */
module MemoryEffects {
  import opened Common
  import opened Memory
  import opened MemoryRuns

  // ------------------------------------------------------------------ which messages count

  lemma {:induction false} CompleteHas(messages: seq<Message>, m: Message)
    ensures m in Complete(messages) <==> m in messages && m.complete
  {
    if messages != [] {
      var n := |messages| - 1;
      CompleteHas(messages[..n], m);
      assert messages == messages[..n] + [messages[n]];
    }
  }

  lemma {:induction false} AboveHas(messages: seq<Message>, bound: nat, m: Message)
    ensures m in Above(messages, bound) <==> m in messages && m.seqNo > bound
  {
    if messages != [] {
      var n := |messages| - 1;
      AboveHas(messages[..n], bound, m);
      assert messages == messages[..n] + [messages[n]];
    }
  }

  /** Not summarised, or no summary is sent. */
  predicate Unsummarised(c: Conversation, m: Message) {
    c.summary.Some? && c.summary.value != "" && c.upto.Some? ==> m.seqNo > c.upto.value
  }

  lemma EligibleHas(c: Conversation, m: Message)
    ensures m in Eligible(c) <==> m in c.messages && m.complete && Unsummarised(c, m)
  {
    CompleteHas(c.messages, m);
    if HasSummary(c) && c.upto.Some? {
      AboveHas(Complete(c.messages), c.upto.value, m);
    }
  }

  // ------------------------------------------------------------------ how much they weigh

  datatype Load = Load(count: nat, tokens: nat)

  /** The complete messages numbered from `from` on: how many, and their tokens. */
  function LoadFrom(messages: seq<Message>, from: nat): Load {
    if messages == [] then Load(0, 0)
    else
      var before, last := LoadFrom(messages[..|messages| - 1], from), messages[|messages| - 1];
      if last.complete && last.seqNo >= from
      then Load(before.count + 1, before.tokens + (|last.text| + 3) / 4)
      else before
  }

  lemma LoadMore(messages: seq<Message>, last: Message, from: nat)
    ensures LoadFrom(messages + [last], from) ==
      if last.complete && last.seqNo >= from
      then Load(LoadFrom(messages, from).count + 1, LoadFrom(messages, from).tokens + (|last.text| + 3) / 4)
      else LoadFrom(messages, from)
  {
    assert (messages + [last])[..|messages|] == messages;
  }

  lemma CompleteMore(messages: seq<Message>, last: Message)
    ensures Complete(messages + [last]) == if last.complete then Complete(messages) + [last] else Complete(messages)
  {
    assert (messages + [last])[..|messages|] == messages;
  }

  lemma LoadOfOneMore(messages: seq<Message>, last: Message, from: nat)
    requires LoadFrom(Complete(messages), from) == LoadFrom(messages, from)
    ensures LoadFrom(Complete(messages + [last]), from) == LoadFrom(messages + [last], from)
  {
    CompleteMore(messages, last);
    LoadMore(messages, last, from);
    LoadMore(Complete(messages), last, from);
  }

  lemma {:induction false} LoadOfComplete(messages: seq<Message>, from: nat)
    ensures LoadFrom(Complete(messages), from) == LoadFrom(messages, from)
  {
    if messages != [] {
      var n := |messages| - 1;
      LoadOfComplete(messages[..n], from);
      LoadOfOneMore(messages[..n], messages[n], from);
      assert messages[..n] + [messages[n]] == messages;
    }
  }

  lemma {:induction false} NothingBefore(messages: seq<Message>, from: nat)
    requires forall i :: 0 <= i < |messages| ==> messages[i].seqNo < from
    ensures LoadFrom(messages, from) == Load(0, 0)
  {
    if messages != [] {
      NothingBefore(messages[..|messages| - 1], from);
    }
  }

  /** Of rising complete messages, those from number q on weigh what the last of them do. */
  lemma {:induction false} LoadIsCost(messages: seq<Message>, q: nat)
    requires Rising(messages) && q < |messages|
    requires forall i :: 0 <= i < |messages| ==> messages[i].complete
    ensures LoadFrom(messages, messages[q].seqNo) == Load(|messages| - q, Cost(messages, q, |messages|))
  {
    var n := |messages| - 1;
    if q < n {
      LoadIsCost(messages[..n], q);
      CostOfPrefix(messages, q, n);
    } else {
      NothingBefore(messages[..n], messages[q].seqNo);
      assert Cost(messages, n, n) == 0;
    }
  }

  lemma {:induction false} CostOfPrefix(messages: seq<Message>, q: nat, n: nat)
    requires q <= n <= |messages|
    ensures Cost(messages[..n], q, n) == Cost(messages, q, n)
    decreases n
  {
    if q < n {
      CostOfPrefix(messages, q, n - 1);
      CostOfPrefix(messages[..n], q, n - 1);
      assert messages[..n][..n - 1] == messages[..n - 1];
    }
  }

  /** Messages below the first one that counts weigh nothing. */
  lemma {:induction false} LoadOfSuffix(messages: seq<Message>, k: nat, from: nat)
    requires k <= |messages|
    requires forall i :: 0 <= i < k ==> messages[i].seqNo < from
    ensures LoadFrom(messages[k..], from) == LoadFrom(messages, from)
    decreases |messages|
  {
    var n := |messages| - 1;
    if k == |messages| {
      NothingBefore(messages, from);
      assert messages[k..] == [];
    } else {
      LoadOfSuffix(messages[..n], k, from);
      assert messages[k..][..|messages[k..]| - 1] == messages[..n][k..];
    }
  }

  // ------------------------------------------------------------------ the window

  /** The eligible messages are the complete ones from some place on. */
  lemma EligibleIsSuffix(s: State) returns (k: nat)
    requires Inv(s)
    ensures k <= |Complete(s.conv.messages)| && Eligible(s.conv) == Complete(s.conv.messages)[k..]
  {
    var complete := Complete(s.conv.messages);
    if HasSummary(s.conv) {
      UnfoldedIsRest(s);
      k := |Flat(s.folds)|;
      assert Eligible(s.conv) == Unfolded(s.conv);
    } else {
      k := 0;
      assert complete[0..] == complete;
    }
  }

  lemma SuffixRises(messages: seq<Message>, k: nat)
    requires Rising(messages) && k <= |messages|
    ensures Rising(messages[k..])
  {
  }

  lemma EligibleLoad(s: State, p: nat)
    requires Inv(s) && p < |Eligible(s.conv)|
    ensures var e := Eligible(s.conv);
      Rising(e) && LoadFrom(s.conv.messages, e[p].seqNo) == Load(|e| - p, Cost(e, p, |e|))
  {
    var e, complete := Eligible(s.conv), Complete(s.conv.messages);
    var k := EligibleIsSuffix(s);
    SuffixRises(complete, k);
    assert complete[k + p] == e[p];
    forall i | 0 <= i < |e| ensures e[i].complete {
      CompleteHas(s.conv.messages, e[i]);
      assert complete[k + i] == e[i];
    }
    LoadIsCost(e, p);
    LoadOfSuffix(complete, k, e[p].seqNo);
    LoadOfComplete(s.conv.messages, e[p].seqNo);
  }

  lemma InSuffixIff(messages: seq<Message>, at: nat, p: nat)
    requires Rising(messages) && p < |messages| && at <= |messages|
    ensures messages[p] in messages[at..] <==> p >= at
  {
    if p >= at {
      assert messages[at..][p - at] == messages[p];
    }
  }

  lemma WindowHas(s: State, most: nat, budget: nat, p: nat)
    requires Inv(s) && most > 0 && budget > 0 && p < |Eligible(s.conv)|
    ensures var e, load := Eligible(s.conv), LoadFrom(s.conv.messages, Eligible(s.conv)[p].seqNo);
      e[p] in WindowOf(s.conv, most, budget) <==> load.count <= most && load.tokens <= budget
  {
    var e := Eligible(s.conv);
    EligibleLoad(s, p);
    WindowIsLongest(e, most, budget);
    var w := Window(e, most, budget);
    InSuffixIff(e, |e| - |w|, p);
    assert Fits(e, |e|, |e| - p, most, budget) <==> |e| - p <= |w|;
  }

  /** The message may be sent: complete, not summarised, and within both limits with all newer. */
  predicate IsSent(c: Conversation, most: nat, budget: nat, m: Message) {
    && most > 0 && budget > 0 && m in c.messages && m.complete && Unsummarised(c, m)
    && LoadFrom(c.messages, m.seqNo).count <= most && LoadFrom(c.messages, m.seqNo).tokens <= budget
  }

  lemma WindowIsEligible(c: Conversation, most: nat, budget: nat, m: Message)
    requires m in WindowOf(c, most, budget)
    ensures most > 0 && budget > 0 && m in Eligible(c)
  {
  }

  lemma SentIffInWindow(s: State, most: nat, budget: nat, m: Message)
    requires Inv(s)
    ensures m in WindowOf(s.conv, most, budget) <==> IsSent(s.conv, most, budget, m)
  {
    EligibleHas(s.conv, m);
    if m in WindowOf(s.conv, most, budget) {
      WindowIsEligible(s.conv, most, budget, m);
    }
    if most > 0 && budget > 0 && m in Eligible(s.conv) {
      var p :| 0 <= p < |Eligible(s.conv)| && Eligible(s.conv)[p] == m;
      WindowHas(s, most, budget, p);
    }
  }

  lemma WindowRises(s: State, most: nat, budget: nat)
    requires Inv(s)
    ensures Rising(WindowOf(s.conv, most, budget))
  {
    var complete, e := Complete(s.conv.messages), Eligible(s.conv);
    var k := EligibleIsSuffix(s);
    SuffixRises(complete, k);
    SuffixRises(e, |e| - Taken(e, |e|, most, budget));
  }

  /** In every run the window sent with a question holds exactly the complete messages, not
      summarised while a summary is sent, that are within both limits together with all newer ones,
      in their order. */
  lemma WindowHasTheNewest(states: seq<State>, events: seq<Event>, n: nat, most: nat, budget: nat, m: Message)
    requires IsRun(states, events) && n < |states|
    ensures m in WindowOf(states[n].conv, most, budget) <==> IsSent(states[n].conv, most, budget, m)
    ensures Rising(WindowOf(states[n].conv, most, budget))
  {
    InvHolds(states, events, n);
    SentIffInWindow(states[n], most, budget, m);
    WindowRises(states[n], most, budget);
  }

  // ------------------------------------------------------------------ the transcript

  /** What was said, a line a message. */
  function Said(messages: seq<Message>): string {
    if messages == [] then ""
    else
      var line := (if messages[0].user then "user: " else "assistant: ") + messages[0].text;
      if |messages| == 1 then line else line + "\n" + Said(messages[1..])
  }

  lemma {:induction false} LinesAreSaid(messages: seq<Message>)
    ensures Join('\n', Lines(messages)) == Said(messages)
  {
    if |messages| > 1 {
      LinesAreSaid(messages[1..]);
      assert Lines(messages) == [Line(messages[0])] + Lines(messages[1..]);
      JoinUnion('\n', [Line(messages[0])], Lines(messages[1..]));
      assert ['\n'] == "\n";
    }
  }

  /** The first n characters. */
  function FirstChars(text: string, n: nat): (r: string)
    ensures |r| <= n && r <= text && (|r| == n || r == text)
  {
    if |text| <= n then text else text[..n]
  }

  /** The last n characters. */
  function LastChars(text: string, n: nat): (r: string)
    ensures |r| <= n && (|r| == n || r == text)
    ensures |r| <= |text| && text[|text| - |r|..] == r
  {
    if |text| <= n then text else text[|text| - n..]
  }

  lemma TranscriptIsSaid(older: seq<Message>)
    ensures Transcript(older) == FirstChars(Said(older), 6000)
  {
    LinesAreSaid(older);
  }

  // ------------------------------------------------------------------ what a summary changes

  /** What a summary asked for now would fold: the complete messages not folded before, without the
      newest 12. */
  function ToFold(s: State): seq<Message> {
    var complete, done := Complete(s.conv.messages), |Flat(s.folds)|;
    if |complete| - done <= 12 then [] else complete[done..|complete| - 12]
  }

  lemma OlderIsToFold(s: State)
    requires Inv(s)
    ensures Older(s.conv) == ToFold(s)
  {
    UnfoldedIsRest(s);
    var complete, done := Complete(s.conv.messages), |Flat(s.folds)|;
    if |complete| - done > 12 {
      assert complete[done..][..|complete| - done - 12] == complete[done..|complete| - 12];
    }
  }

  /** The new summary is the end of the old one and the answer. */
  predicate RollsOn(c: Conversation, d: Conversation, reply: string, last: nat) {
    && d.messages == c.messages && d.upto == Some(last)
    && d.summary == Some(LastChars(
         if c.summary.Some? && c.summary.value != "" then c.summary.value + "\n" + reply else reply, 2000))
  }

  lemma LastPartIsLast(text: string)
    ensures LastPart(text) == LastChars(text, 2000)
  {
  }

  lemma AnsweredRolls(c: Conversation, ask: Summariser, reply: string)
    requires Older(c) != [] && ask(Transcript(Older(c))) == Some(reply)
    ensures RollsOn(c, AfterSummary(c, ask), reply, Older(c)[|Older(c)| - 1].seqNo)
  {
    var previous := if HasSummary(c) then c.summary.value + "\n" else "";
    LastPartIsLast(previous + reply);
    assert previous == "" ==> previous + reply == reply;
  }

  /** In every run a summary is due exactly when more than 12 complete messages are not folded: it
      asks with the first 6000 characters of what the others say and, if answered, folds just those;
      else nothing changes. */
  lemma {:induction false} SummaryFoldsTheRest(states: seq<State>, events: seq<Event>, n: nat, ask: Summariser)
    requires IsRun(states, events) && n < |events| && events[n] == Summarise(ask)
    ensures var s, t, older := states[n], states[n + 1], ToFold(states[n]);
      if older != [] && ask(FirstChars(Said(older), 6000)).Some?
      then
        && t.folds == s.folds + [older]
        && RollsOn(s.conv, t.conv, ask(FirstChars(Said(older), 6000)).value, older[|older| - 1].seqNo)
      else t == s
  {
    InvHolds(states, events, n);
    var s := states[n];
    OlderIsToFold(s);
    TranscriptIsSaid(ToFold(s));
    if ToFold(s) != [] && ask(Transcript(ToFold(s))).Some? {
      AnsweredRolls(s.conv, ask, ask(Transcript(ToFold(s))).value);
    }
  }
}
