/**
  Conversation memory (`memory.py`): the window of recent turns sent with a question, and the
  rolling summary of older ones.
 */
module Memory {
  import opened Common

  datatype Message = Message(seqNo: nat, user: bool, text: string, complete: bool)

  /** A conversation's messages by rising number, its summary and the number it reaches to. */
  datatype Conversation = Conversation(messages: seq<Message>, summary: Option<string>, upto: Option<nat>)

  const SUMMARY_TRIGGER := 12
  const TRANSCRIPT_LIMIT := 6000
  const SUMMARY_LIMIT := 2000

  function Complete(messages: seq<Message>): seq<Message> {
    if messages == [] then []
    else Complete(messages[..|messages| - 1]) + (if messages[|messages| - 1].complete then [messages[|messages| - 1]] else [])
  }

  /** The messages numbered above a bound. */
  function Above(messages: seq<Message>, bound: nat): seq<Message> {
    if messages == [] then []
    else
      Above(messages[..|messages| - 1], bound)
        + (if messages[|messages| - 1].seqNo > bound then [messages[|messages| - 1]] else [])
  }

  // ------------------------------------------------------------------ the window

  predicate HasSummary(c: Conversation) {
    c.summary.Some? && c.summary.value != ""
  }

  /** The messages the window is taken from. */
  function Eligible(c: Conversation): seq<Message> {
    if HasSummary(c) && c.upto.Some? then Above(Complete(c.messages), c.upto.value) else Complete(c.messages)
  }

  /** Tokens of the messages from i to j. */
  function Cost(messages: seq<Message>, i: nat, j: nat): nat
    requires i <= j <= |messages|
    decreases j - i
  {
    if i == j then 0 else Cost(messages, i, j - 1) + Tokens(messages[j - 1].text)
  }

  /** How many of the first i messages are taken, newest first, until a limit is met. */
  function Taken(messages: seq<Message>, i: nat, most: nat, budget: nat): (n: nat)
    requires i <= |messages|
    ensures n <= i
  {
    if i == 0 || most == 0 || Tokens(messages[i - 1].text) > budget then 0
    else 1 + Taken(messages, i - 1, most - 1, budget - Tokens(messages[i - 1].text))
  }

  function Window(eligible: seq<Message>, most: nat, budget: nat): seq<Message> {
    eligible[|eligible| - Taken(eligible, |eligible|, most, budget)..]
  }

  function WindowOf(c: Conversation, most: nat, budget: nat): seq<Message> {
    if most == 0 || budget == 0 then [] else Window(Eligible(c), most, budget)
  }

  // ------------------------------------------------------------------ the summary

  function Line(m: Message): string {
    (if m.user then "user: " else "assistant: ") + m.text
  }

  function Lines(messages: seq<Message>): (lines: seq<string>)
    ensures |lines| == |messages| && forall i :: 0 <= i < |messages| ==> lines[i] == Line(messages[i])
  {
    seq(|messages|, i requires 0 <= i < |messages| => Line(messages[i]))
  }

  function Transcript(older: seq<Message>): string {
    var text := Join('\n', Lines(older));
    if |text| <= TRANSCRIPT_LIMIT then text else text[..TRANSCRIPT_LIMIT]
  }

  /** The gateway's stripped answer to a transcript; None when no model inside the boundary is
      available. */
  type Summariser = string -> Option<string>

  function Unfolded(c: Conversation): seq<Message> {
    Above(Complete(c.messages), if c.upto.Some? then c.upto.value else 0)
  }

  /** The messages a summary would fold: all but the newest of those not folded yet. */
  function Older(c: Conversation): seq<Message> {
    var rows := Unfolded(c);
    if |rows| <= SUMMARY_TRIGGER then [] else rows[..|rows| - SUMMARY_TRIGGER]
  }

  function LastPart(text: string): string {
    if |text| <= SUMMARY_LIMIT then text else text[|text| - SUMMARY_LIMIT..]
  }

  function AfterSummary(c: Conversation, ask: Summariser): Conversation {
    var older := Older(c);
    if older == [] then c
    else
      var reply := ask(Transcript(older));
      if reply.None? then c
      else
        var previous := if HasSummary(c) then c.summary.value + "\n" else "";
        c.(summary := Some(LastPart(previous + reply.value)), upto := Some(older[|older| - 1].seqNo))
  }

  /** A conversation row and its messages. */
  class ConversationStore {
    var messages: seq<Message>
    var summary: Option<string>
    var upto: Option<nat>

    ghost function Committed(): Conversation
      reads this
    {
      Conversation(messages, summary, upto)
    }

    constructor ()
      ensures Committed() == Conversation([], None, None)
    {
      messages, summary, upto := [], None, None;
    }

    /** Reads rows newest first until a limit is met. */
    method LoadWindow(most: nat, budget: nat) returns (window: seq<Message>)
      ensures window == WindowOf(Committed(), most, budget)
    {
      window := [];
      if most == 0 || budget == 0 {
        return;
      }
      var rows := Eligible(Conversation(messages, summary, upto));
      var used, i := 0, |rows|;
      ghost var all := Taken(rows, |rows|, most, budget);
      while i > 0 && |rows| - i < most
        invariant 0 <= i <= |rows| && |rows| - i <= most && used <= budget
        invariant window == rows[i..]
        invariant all == |rows| - i + Taken(rows, i, most - (|rows| - i), budget - used)
      {
        var row := rows[i - 1];
        var cost := Tokens(row.text);
        if used + cost > budget {
          break;
        }
        used := used + cost;
        window := [row] + window;
        i := i - 1;
      }
    }

    method UpdateSummary(ask: Summariser)
      modifies this
      ensures Committed() == AfterSummary(old(Committed()), ask)
    {
      var rows := Unfolded(Conversation(messages, summary, upto));
      if |rows| <= SUMMARY_TRIGGER {
        return;
      }
      var older := rows[..|rows| - SUMMARY_TRIGGER];
      var reply := ask(Transcript(older));
      if reply == None {
        return;
      }
      var previous := if summary != None && summary.value != "" then summary.value + "\n" else "";
      summary := Some(LastPart(previous + reply.value));
      upto := Some(older[|older| - 1].seqNo);
    }

    method AddMessage(m: Message)
      modifies this
      ensures Committed() == old(Committed()).(messages := old(messages) + [m])
    {
      messages := messages + [m];
    }
  }

  // ------------------------------------------------------------------ the longest suffix

  /** The n messages before position i are within both limits. */
  predicate Fits(messages: seq<Message>, i: nat, n: nat, most: nat, budget: nat)
    requires n <= i <= |messages|
  {
    n <= most && Cost(messages, i - n, i) <= budget
  }

  lemma {:induction false} FitsIffTaken(messages: seq<Message>, i: nat, n: nat, most: nat, budget: nat)
    requires n <= i <= |messages|
    ensures Fits(messages, i, n, most, budget) <==> n <= Taken(messages, i, most, budget)
  {
    if n > 0 && most > 0 && Tokens(messages[i - 1].text) <= budget {
      FitsIffTaken(messages, i - 1, n - 1, most - 1, budget - Tokens(messages[i - 1].text));
    }
  }

  /** The window is the longest run of the newest eligible messages within both limits. */
  lemma WindowIsLongest(eligible: seq<Message>, most: nat, budget: nat)
    ensures var w := Window(eligible, most, budget);
      && |w| <= |eligible| && w == eligible[|eligible| - |w|..]
      && (forall n :: 0 <= n <= |eligible| ==> (Fits(eligible, |eligible|, n, most, budget) <==> n <= |w|))
  {
    forall n | 0 <= n <= |eligible|
      ensures Fits(eligible, |eligible|, n, most, budget) <==> n <= |Window(eligible, most, budget)|
    {
      FitsIffTaken(eligible, |eligible|, n, most, budget);
    }
  }

  // ------------------------------------------------------------------ the rolling summary

  predicate EndsWith(text: string, end: string) {
    |end| <= |text| && text[|text| - |end|..] == end
  }

  /** The summariser sees the beginning of the folded turns, up to the limit; the new summary stays
      within its own limit, ends with the answer if that fits, and keeps the old summary before it
      if both do. */
  lemma SummaryRolls(c: Conversation, ask: Summariser, reply: string)
    requires Older(c) != [] && ask(Transcript(Older(c))) == Some(reply)
    ensures var text := Join('\n', Lines(Older(c)));
      Transcript(Older(c)) <= text && (|text| <= TRANSCRIPT_LIMIT ==> Transcript(Older(c)) == text)
    ensures var after := AfterSummary(c, ask);
      && after.summary.Some? && |after.summary.value| <= SUMMARY_LIMIT
      && (|reply| <= SUMMARY_LIMIT ==> EndsWith(after.summary.value, reply))
      && (HasSummary(c) && |c.summary.value| + 1 + |reply| <= SUMMARY_LIMIT ==>
            after.summary.value == c.summary.value + "\n" + reply)
  {
    var previous := if HasSummary(c) then c.summary.value + "\n" else "";
    var text := previous + reply;
    if |text| > SUMMARY_LIMIT && |reply| <= SUMMARY_LIMIT {
      var kept := text[|text| - SUMMARY_LIMIT..];
      assert kept[SUMMARY_LIMIT - |reply|..] == text[|previous|..] == reply;
    }
  }

  // ------------------------------------------------------------------ what the summariser sees

  /** The lines of the first k messages, as the transcript has them. */
  function Head(older: seq<Message>, k: nat): string
    requires k <= |older|
  {
    Join('\n', Lines(older[..k]))
  }

  /** Where the line of message i starts. */
  function LineStart(older: seq<Message>, i: nat): nat
    requires i < |older|
  {
    if i == 0 then 0 else |Head(older, i)| + 1
  }

  /** The line of message i is whole in the transcript, at its place. */
  predicate Seen(older: seq<Message>, i: nat)
    requires i < |older|
  {
    var at, line := LineStart(older, i), Line(older[i]);
    at + |line| <= |Transcript(older)| && Transcript(older)[at..at + |line|] == line
  }

  lemma HeadMore(older: seq<Message>, i: nat)
    requires i < |older|
    ensures |Head(older, i + 1)| == LineStart(older, i) + |Line(older[i])|
    ensures Head(older, i + 1)[LineStart(older, i)..] == Line(older[i])
  {
    assert Lines(older[..i + 1]) == Lines(older[..i]) + [Line(older[i])];
    if i > 0 {
      JoinUnion('\n', Lines(older[..i]), [Line(older[i])]);
    }
  }

  lemma {:induction false} HeadBegins(older: seq<Message>, k: nat)
    requires 1 <= k <= |older|
    ensures Head(older, k) <= Join('\n', Lines(older))
  {
    if k == |older| {
      assert older[..k] == older;
    } else {
      assert Lines(older) == Lines(older[..k]) + Lines(older[k..]);
      JoinUnion('\n', Lines(older[..k]), Lines(older[k..]));
    }
  }

  /** The summariser sees the whole of a message exactly if its line and those before it are within
      the limit. */
  lemma SeenIffWithin(older: seq<Message>, i: nat)
    requires i < |older|
    ensures Seen(older, i) <==> |Head(older, i + 1)| <= TRANSCRIPT_LIMIT
  {
    HeadMore(older, i);
    HeadBegins(older, i + 1);
    CutOrWhole(Join('\n', Lines(older)), Head(older, i + 1), LineStart(older, i));
  }

  /** What the cut at the limit leaves of a beginning of the text. */
  lemma CutOrWhole(text: string, head: string, at: nat)
    requires head <= text && at <= |head|
    ensures var kept := if |text| <= TRANSCRIPT_LIMIT then text else text[..TRANSCRIPT_LIMIT];
      if |head| <= TRANSCRIPT_LIMIT then |head| <= |kept| && kept[at..|head|] == head[at..] else |head| > |kept|
  {
  }
}
