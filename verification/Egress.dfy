/**
  Conversation-wide egress control (`config.py`, `api/chat.py`): which texts may be sent to a
  provider outside the boundary is decided on the most sensitive class the whole conversation
  has used.

  Every text carries the set of classes of the documents it was drawn from.  The set is an
  annotation of the model: the program itself keeps only one class per conversation.
 */
module Egress {
  import opened Common
  import opened Labels

  /** The first label of the highest rank. */
  function FirstMax(labels: seq<Label>): Label
    requires labels != []
  {
    var last := labels[|labels| - 1];
    if |labels| == 1 then last
    else
      var best := FirstMax(labels[..|labels| - 1]);
      if Rank(last) > Rank(best) then last else best
  }

  function Present(labels: seq<Option<Label>>): seq<Label> {
    if labels == [] then []
    else (if labels[0].Some? then [labels[0].value] else []) + Present(labels[1..])
  }

  function MostSensitive(labels: seq<Option<Label>>): Option<Label> {
    var present := Present(labels);
    if present == [] then None else Some(FirstMax(present))
  }

  function Allows(limit: Label, l: Option<Label>): bool {
    l.None? || Rank(l.value) <= Rank(limit)
  }

  /** No label ranks higher, and those before it rank lower. */
  predicate IsFirstMaximum(labels: seq<Label>, i: nat) {
    && i < |labels|
    && (forall j :: 0 <= j < i ==> Rank(labels[j]) < Rank(labels[i]))
    && (forall j :: i <= j < |labels| ==> Rank(labels[j]) <= Rank(labels[i]))
  }

  lemma {:induction false} FirstMaxIsTheFirstMaximum(labels: seq<Label>) returns (i: nat)
    requires labels != []
    ensures IsFirstMaximum(labels, i) && FirstMax(labels) == labels[i]
  {
    var n := |labels| - 1;
    if n == 0 {
      i := 0;
    } else {
      i := FirstMaxIsTheFirstMaximum(labels[..n]);
      if Rank(labels[n]) > Rank(labels[i]) {
        i := n;
      }
    }
  }

  lemma {:induction false} PresentHas(labels: seq<Option<Label>>, l: Label)
    ensures l in Present(labels) <==> Some(l) in labels
  {
    if labels != [] {
      PresentHas(labels[1..], l);
      assert labels == [labels[0]] + labels[1..];
    }
  }

  /** Nothing may leave that any part may not: a list's class is allowed out exactly when
      every class in it is. */
  lemma AllowsMostSensitive(limit: Label, labels: seq<Option<Label>>)
    ensures Allows(limit, MostSensitive(labels)) <==> forall l :: l in labels ==> Allows(limit, l)
  {
    var present := Present(labels);
    forall l: Label ensures l in present <==> Some(l) in labels {
      PresentHas(labels, l);
    }
    if present != [] {
      var i := FirstMaxIsTheFirstMaximum(present);
      assert present[i] in present;
    }
    forall l | l in labels && l.Some? ensures l.value in present {
    }
  }

  lemma MostSensitiveOfTwo(a: Option<Label>, b: Option<Label>)
    ensures MostSensitive([a, b]) ==
      if a.None? then b else if b.None? then a else if Rank(b.value) > Rank(a.value) then b else a
  {
    assert [a, b][1..] == [b] && [b][1..] == [];
    assert Present([]) == [];
    assert Present([b]) == (if b.Some? then [b.value] else []) + Present([]);
    assert Present([a, b]) == (if a.Some? then [a.value] else []) + Present([b]);
    if a.Some? && b.Some? {
      assert Present([a, b]) == [a.value, b.value] && [a.value, b.value][..1] == [a.value];
      assert FirstMax([a.value]) == a.value;
    }
  }

  // ------------------------------------------------------------------ texts

  datatype Text = Text(content: string, drawnFrom: set<Label>)

  datatype Chunk = Chunk(content: string, level: Label)

  function Drawn(texts: seq<Text>): set<Label> {
    set t, l | t in texts && l in t.drawnFrom :: l
  }

  function SourceLabels(chunks: seq<Chunk>): set<Label> {
    set c | c in chunks :: c.level
  }

  function LabelsOf(chunks: seq<Chunk>): seq<Label>
    ensures |LabelsOf(chunks)| == |chunks|
  {
    if chunks == [] then [] else [chunks[0].level] + LabelsOf(chunks[1..])
  }

  function MaxLabel(chunks: seq<Chunk>): Option<Label> {
    if chunks == [] then None else Some(FirstMax(LabelsOf(chunks)))
  }

  /** No label ranks above the bound. */
  predicate Bounded(labels: set<Label>, bound: Option<Label>) {
    forall l :: l in labels ==> bound.Some? && Rank(l) <= Rank(bound.value)
  }

  predicate AtMost(a: Option<Label>, b: Option<Label>) {
    a.None? || (b.Some? && Rank(a.value) <= Rank(b.value))
  }

  lemma {:induction false} LabelsOfAt(chunks: seq<Chunk>, i: nat)
    requires i < |chunks|
    ensures LabelsOf(chunks)[i] == chunks[i].level
  {
    if i > 0 {
      LabelsOfAt(chunks[1..], i - 1);
    }
  }

  /** A context's class bounds the class of every source in it, and is one of them. */
  lemma MaxLabelBounds(chunks: seq<Chunk>)
    ensures Bounded(SourceLabels(chunks), MaxLabel(chunks))
    ensures MaxLabel(chunks).Some? ==> MaxLabel(chunks).value in SourceLabels(chunks)
  {
    if chunks != [] {
      var labels := LabelsOf(chunks);
      var i := FirstMaxIsTheFirstMaximum(labels);
      forall l | l in SourceLabels(chunks) ensures Rank(l) <= Rank(labels[i]) {
        var k :| 0 <= k < |chunks| && chunks[k].level == l;
        LabelsOfAt(chunks, k);
      }
      LabelsOfAt(chunks, i);
      assert chunks[i] in chunks;
    }
  }

  // ------------------------------------------------------------------ the conversation

  datatype Message = Message(text: Text, complete: bool)

  datatype Conversation = Conversation(stored: Option<Label>, messages: seq<Message>, summary: Option<Text>)

  /** What a turn reads before it starts: the history it will send and the class stored then. */
  datatype Prepared = Prepared(question: string, history: seq<Text>, snapshot: Option<Label>)

  predicate IsWindow(messages: seq<Message>, window: seq<nat>) {
    forall i :: 0 <= i < |window| ==> window[i] < |messages| && messages[window[i]].complete
  }

  function Picked(messages: seq<Message>, window: seq<nat>): (texts: seq<Text>)
    requires IsWindow(messages, window)
    ensures forall t :: t in texts ==> exists m :: m in messages && m.complete && m.text == t
  {
    if window == [] then [] else [messages[window[0]].text] + Picked(messages, window[1..])
  }

  function SummaryNote(c: Conversation): seq<Text> {
    if c.summary.Some? && c.summary.value.content != "" then [c.summary.value] else []
  }

  function PreparedTurn(c: Conversation, question: string, window: seq<nat>): Prepared
    requires IsWindow(c.messages, window)
  {
    Prepared(question, SummaryNote(c) + Picked(c.messages, window), c.stored)
  }

  /** A text nobody drew from a document: the user's question or a fixed reply. */
  function Plain(content: string): Text {
    Text(content, {})
  }

  function AfterSave(c: Conversation, text: Text, complete: bool): Conversation {
    c.(messages := c.messages + [Message(text, complete)])
  }

  function AfterRemember(c: Conversation, p: Prepared, chunks: seq<Chunk>): Conversation {
    var current := MaxLabel(chunks);
    if current.None? || MostSensitive([p.snapshot, current]) == p.snapshot then c
    else c.(stored := MostSensitive([c.stored, current]))
  }

  predicate EgressAllowed(limit: Label, p: Prepared, chunks: seq<Chunk>) {
    Allows(limit, MostSensitive([p.snapshot, MaxLabel(chunks)]))
  }

  /** A turn's prompt may leave exactly when the class stored at its start and the class of
      every source in it may. */
  lemma EgressAllowedIff(limit: Label, p: Prepared, chunks: seq<Chunk>)
    ensures EgressAllowed(limit, p, chunks) <==>
      Allows(limit, p.snapshot) && forall l :: l in SourceLabels(chunks) ==> Allows(limit, Some(l))
  {
    AllowsMostSensitive(limit, [p.snapshot, MaxLabel(chunks)]);
    MaxLabelBounds(chunks);
    var both := [p.snapshot, MaxLabel(chunks)];
    assert both[0] in both && both[1] in both;
  }

  /** After a turn has recorded its context, the stored class has not fallen and bounds that
      context - also when the turn skips the write because its snapshot already did. */
  lemma RememberBounds(c: Conversation, p: Prepared, chunks: seq<Chunk>)
    requires AtMost(p.snapshot, c.stored)
    ensures var after := AfterRemember(c, p, chunks);
      && AtMost(c.stored, after.stored) && Bounded(SourceLabels(chunks), after.stored)
      && after == c.(stored := after.stored)
      && (after.stored == c.stored || (after.stored.Some? && after.stored.value in SourceLabels(chunks)))
  {
    MaxLabelBounds(chunks);
    MostSensitiveOfTwo(p.snapshot, MaxLabel(chunks));
    MostSensitiveOfTwo(c.stored, MaxLabel(chunks));
  }

  /** The conversation's row and messages, as the chat endpoint's transactions change them. */
  class ChatStore {
    var contextClassification: Option<Label>
    var messages: seq<Message>
    var summary: Option<Text>

    ghost function Committed(): Conversation
      reads this
    {
      Conversation(contextClassification, messages, summary)
    }

    constructor ()
      ensures Committed() == Conversation(None, [], None)
    {
      contextClassification, messages, summary := None, [], None;
    }

    /** Reads the window and the class, and stores the user's message, in one transaction. */
    method Prepare(question: string, window: seq<nat>) returns (prep: Prepared)
      requires IsWindow(messages, window)
      modifies this
      ensures prep == PreparedTurn(old(Committed()), question, window)
      ensures Committed() == AfterSave(old(Committed()), Plain(question), true)
    {
      var history: seq<Text> := [];
      if summary != None && summary.value.content != "" {
        history := [summary.value];
      }
      ghost var note := history;
      for i := 0 to |window|
        invariant history + Picked(messages, window[i..]) == note + Picked(messages, window)
      {
        assert window[i..][1..] == window[i + 1..];
        history := history + [messages[window[i]].text];
      }
      assert window[|window|..] == [];
      assert history + [] == history;
      prep := Prepared(question, history, contextClassification);
      messages := messages + [Message(Plain(question), true)];
    }

    /** Records the class of the turn's sources before any model sees them. */
    method RememberContext(prep: Prepared, chunks: seq<Chunk>)
      modifies this
      ensures Committed() == AfterRemember(old(Committed()), prep, chunks)
    {
      var current := MaxLabel(chunks);
      if current == None || MostSensitive([prep.snapshot, current]) == prep.snapshot {
        return;
      }
      contextClassification := MostSensitive([contextClassification, current]);
    }

    method SaveAssistant(text: Text, complete: bool)
      modifies this
      ensures Committed() == AfterSave(old(Committed()), text, complete)
    {
      messages := messages + [Message(text, complete)];
    }
  }
}
