/** What every prompt of a conversation carries and who may receive it, told from the texts and the
    classes alone. */
module EgressEffects {
  import opened Common
  import opened Labels
  import opened Egress
  import opened EgressRuns

  // ------------------------------------------------------------------ the classes

  /** Public may always leave, internal unless the limit is public, confidential and anything unlisted
      only if the limit is confidential; what has no class may. */
  lemma ClassesInOrder(l: Label, name: string)
    ensures Allows(l, None) && Allows(l, Some(Public)) && Allows(Confidential, Some(l))
    ensures Allows(Public, Some(l)) <==> l == Public
    ensures Allows(Internal, Some(l)) <==> l == Public || l == Internal
    ensures Allows(l, Some(Unlisted(name))) <==> Allows(l, Some(Confidential))
  {
  }

  // ------------------------------------------------------------------ what a turn reads

  lemma {:induction false} PickedInOrder(messages: seq<Message>, window: seq<nat>)
    requires IsWindow(messages, window)
    ensures |Picked(messages, window)| == |window|
    ensures forall i :: 0 <= i < |window| ==> Picked(messages, window)[i] == messages[window[i]].text
  {
    if window != [] {
      PickedInOrder(messages, window[1..]);
      forall i | 0 <= i < |window| ensures Picked(messages, window)[i] == messages[window[i]].text {
        if i > 0 {
          assert Picked(messages, window)[i] == Picked(messages, window[1..])[i - 1];
        }
      }
    }
  }

  /** A turn's history is the summary, if there is one, and the texts of the window in order; it keeps
      the question and the class stored at that moment. */
  lemma HistoryIsTheWindow(c: Conversation, question: string, window: seq<nat>, i: nat)
    requires IsWindow(c.messages, window)
    ensures var p := PreparedTurn(c, question, window);
      var notes := if c.summary.Some? && c.summary.value.content != "" then 1 else 0;
      && p.question == question && p.snapshot == c.stored && |p.history| == notes + |window|
      && (notes == 1 ==> p.history[0] == c.summary.value)
      && (i < |window| ==> p.history[notes + i] == c.messages[window[i]].text)
  {
    PickedInOrder(c.messages, window);
  }

  // ------------------------------------------------------------------ what a prompt carries

  /** The class is one a text of the history was drawn from, or of one of the sources. */
  predicate Carries(history: seq<Text>, sources: seq<Chunk>, l: Label) {
    (exists t :: t in history && l in t.drawnFrom) || (exists c :: c in sources && c.level == l)
  }

  lemma PromptCarries(p: Prepared, sources: seq<Chunk>, l: Label)
    ensures l in PromptLabels(p, sources) <==> Carries(p.history, sources, l)
  {
  }

  /** The stored class and the class of every source are within the limit. */
  predicate AllWithin(limit: Label, stored: Option<Label>, sources: seq<Chunk>) {
    && (stored.Some? ==> Rank(stored.value) <= Rank(limit))
    && forall c :: c in sources ==> Rank(c.level) <= Rank(limit)
  }

  lemma AllowedIffWithin(limit: Label, p: Prepared, sources: seq<Chunk>)
    ensures EgressAllowed(limit, p, sources) <==> AllWithin(limit, p.snapshot, sources)
  {
    EgressAllowedIff(limit, p, sources);
    if EgressAllowed(limit, p, sources) {
      forall c | c in sources ensures Rank(c.level) <= Rank(limit) {
        assert c.level in SourceLabels(sources);
      }
    }
  }

  lemma JudgedIffWithin(limit: Label, near: seq<Chunk>)
    ensures Allows(limit, MaxLabel(near)) <==> AllWithin(limit, None, near)
  {
    MaxLabelBounds(near);
    if Allows(limit, MaxLabel(near)) {
      forall c | c in near ensures Rank(c.level) <= Rank(limit) {
        assert c.level in SourceLabels(near);
      }
    }
  }

  // ------------------------------------------------------------------ every call is on record

  /** One prompt more was given to the gateway, for this turn and with this permission. */
  ghost predicate SendsOne(s: State, t: State, id: TurnId, call: Call, allowEgress: bool, carries: set<Label>)
    requires GatewayProperties.Sane(call.request)
  {
    t.sent == s.sent + [Sent(id, Reached(call, allowEgress), carries)]
  }

  /** In every run an answer, first or second, goes out with the history and the sources of its turn,
      to outside providers only if the class stored at its start and all its sources are within the
      limit. */
  lemma AnswersAreSent(limit: Label, states: seq<State>, events: seq<Event>, n: nat, l: Label)
    requires IsRun(limit, states, events) && n < |events| && (events[n].Ask? || events[n].AskAgain?)
    ensures var s, t, id := states[n], states[n + 1], events[n].id;
      && id in s.turns && (s.turns[id].phase.Remembered? || s.turns[id].phase.Drafted?)
      && GatewayProperties.Sane(events[n].call.request)
      && var prep, sources := s.turns[id].prep, s.turns[id].phase.chunks;
      && t.sent != []
      && SendsOne(s, t, id, events[n].call, AllWithin(limit, prep.snapshot, sources), t.sent[|t.sent| - 1].carries)
      && (l in t.sent[|t.sent| - 1].carries <==> Carries(prep.history, sources, l))
  {
    var s, id := states[n], events[n].id;
    assert Enabled(s, events[n]) && states[n + 1] == Next(limit, s, events[n]);
    AllowedIffWithin(limit, s.turns[id].prep, s.turns[id].phase.chunks);
    PromptCarries(s.turns[id].prep, s.turns[id].phase.chunks, l);
  }

  /** The judge gets the near misses, outside only if all are within the limit; a summary's transcript
      never goes outside. */
  lemma OthersAreSent(limit: Label, states: seq<State>, events: seq<Event>, n: nat, l: Label)
    requires IsRun(limit, states, events) && n < |events| && (events[n].Review? || events[n].Fold?)
    ensures var s, t, e := states[n], states[n + 1], events[n];
      && GatewayProperties.Sane(e.call.request) && t.sent != []
      && (e.Review? ==>
            && SendsOne(s, t, e.id, e.call, AllWithin(limit, None, e.near), t.sent[|t.sent| - 1].carries)
            && (l in t.sent[|t.sent| - 1].carries <==> Carries([], e.near, l)))
      && (e.Fold? ==>
            && IsWindow(s.conv.messages, e.older)
            && SendsOne(s, t, e.id, e.call, false, t.sent[|t.sent| - 1].carries)
            && (l in t.sent[|t.sent| - 1].carries <==>
                  exists i :: 0 <= i < |e.older| && l in s.conv.messages[e.older[i]].text.drawnFrom))
  {
    var s, e := states[n], events[n];
    assert Enabled(s, e) && states[n + 1] == Next(limit, s, e);
    match e {
      case Review(_, near, _, _) =>
        JudgedIffWithin(limit, near);
      case Fold(_, older, _, _) =>
        PickedInOrder(s.conv.messages, older);
      case _ =>
    }
  }

  /** Nothing else is sent. */
  lemma NothingElseIsSent(limit: Label, states: seq<State>, events: seq<Event>, n: nat)
    requires IsRun(limit, states, events) && n < |events|
    requires !events[n].Ask? && !events[n].AskAgain? && !events[n].Review? && !events[n].Fold?
    ensures states[n + 1].sent == states[n].sent
  {
    assert states[n + 1] == Next(limit, states[n], events[n]);
  }

  // ------------------------------------------------------------------ what is kept of the answers

  /** An answer counts as drawn from everything its prompt carried; the second, if there is one,
      replaces the first. */
  lemma AnswersCarryTheirPrompt(limit: Label, states: seq<State>, events: seq<Event>, n: nat)
    requires IsRun(limit, states, events) && n < |events| && (events[n].Ask? || events[n].AskAgain?)
    ensures var s, t, e := states[n], states[n + 1], events[n];
      && e.id in s.turns && e.id in t.turns && t.sent != [] && t.conv == s.conv
      && t.turns[e.id].phase.Drafted?
      && var draft, carries := t.turns[e.id].phase.draft, t.sent[|t.sent| - 1].carries;
      && (e.Ask? ==> draft == if e.answer.Some? then Text(e.answer.value, carries) else Text("", {}))
      && (e.AskAgain? ==>
            && s.turns[e.id].phase.Drafted?
            && draft == if e.second.Some? then Text(e.second.value, carries) else s.turns[e.id].phase.draft)
  {
    assert Enabled(states[n], events[n]) && states[n + 1] == Next(limit, states[n], events[n]);
  }

  /** A new summary counts as drawn from the messages it folds and from the summary before. */
  lemma SummariesCarryTheirTexts(limit: Label, states: seq<State>, events: seq<Event>, n: nat, l: Label)
    requires IsRun(limit, states, events) && n < |events| && events[n].Fold?
    ensures var s, t, e := states[n], states[n + 1], events[n];
      && e.id in t.turns && t.turns[e.id].phase.Folding? && IsWindow(s.conv.messages, e.older)
      && var folded := t.turns[e.id].phase.folded;
      && folded.content == e.reply
      && (l in folded.drawnFrom <==>
            || (exists i :: 0 <= i < |e.older| && l in s.conv.messages[e.older[i]].text.drawnFrom)
            || (s.conv.summary.Some? && l in s.conv.summary.value.drawnFrom))
  {
    assert Enabled(states[n], events[n]) && states[n + 1] == Next(limit, states[n], events[n]);
    PickedInOrder(states[n].conv.messages, events[n].older);
  }

  /** The conversation gains a message only by a question, a saved draft or another reply, and a
      summary only from the turn that folded it; its class changes only with a turn's sources. */
  lemma OnlySavesChangeTexts(limit: Label, states: seq<State>, events: seq<Event>, n: nat)
    requires IsRun(limit, states, events) && n < |events|
    ensures var c, d, e := states[n].conv, states[n + 1].conv, events[n];
      match e
      case Prepare(_, question, _) => d == c.(messages := c.messages + [Message(Text(question, {}), true)])
      case Save(id, complete) =>
        && id in states[n].turns && states[n].turns[id].phase.Drafted?
        && d == c.(messages := c.messages + [Message(states[n].turns[id].phase.draft, complete)])
      case SaveOther(told, complete) => d == c.(messages := c.messages + [Message(told, complete)])
      case KeepSummary(id) =>
        && id in states[n].turns && states[n].turns[id].phase.Folding?
        && d == c.(summary := Some(states[n].turns[id].phase.folded))
      case Remember(_) => d.messages == c.messages && d.summary == c.summary
      case _ => d == c
  {
    assert Enabled(states[n], events[n]) && states[n + 1] == Next(limit, states[n], events[n]);
  }
}
