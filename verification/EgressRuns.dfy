/** What leaves the boundary over every interleaving of the turns of one conversation. */
module EgressRuns {
  import opened Common
  import opened Labels
  import opened Egress
  import Resilience
  import Gateway
  import GatewayProperties

  type TurnId = nat

  /** A gateway call: everything the gateway decides on, its blocked set apart. */
  datatype Call = Call(request: Gateway.Request, script: Gateway.Script, world: Gateway.World)

  /** The request as the gateway runs it when the caller does or does not permit egress. */
  function Issued(call: Call, allowEgress: bool): Gateway.Request {
    call.request.(blocked := Gateway.EgressBlocked(call.request.targets, allowEgress))
  }

  /** The run calls the target's provider: it has a record of an attempt, or ends there. */
  ghost predicate Reaches(r: Gateway.Request, call: Call, t: Gateway.Target)
    requires GatewayProperties.Sane(r)
  {
    var report := Gateway.Walk(r, call.script, 0, 0, call.world);
    || (exists a :: a in report.log && !a.outcome.Skipped? && a.model == t.id)
    || ((report.result.Arrived? || report.result.Cut?) && report.result.k < |r.targets| && r.targets[report.result.k] == t)
  }

  /** The targets whose providers received the prompt. */
  ghost function Reached(call: Call, allowEgress: bool): set<Gateway.Target>
    requires GatewayProperties.Sane(call.request)
  {
    set t | t in call.request.targets && Reaches(Issued(call, allowEgress), call, t)
  }

  lemma BlockedRunsStayHome(call: Call, t: Gateway.Target)
    requires GatewayProperties.Sane(call.request) && t in Reached(call, false)
    ensures !t.dataEgress
  {
    var r := Issued(call, false);
    GatewayProperties.NoEgressWithoutPermission(r, call.script, call.world);
    var i :| 0 <= i < |r.targets| && r.targets[i] == t;
    var report := Gateway.Walk(r, call.script, 0, 0, call.world);
    if a :| a in report.log && !a.outcome.Skipped? && a.model == t.id {
      assert r.targets[i].id == a.model;
    }
  }

  // ------------------------------------------------------------------ the turns

  /** A turn on the knowledge path, up to its summary. */
  datatype Phase =
    | Started
    | Found(chunks: seq<Chunk>)
    | Remembered(chunks: seq<Chunk>)
    | Drafted(chunks: seq<Chunk>, draft: Text)
    | Saved
    | Folding(folded: Text)
    | Done

  datatype Turn = Turn(prep: Prepared, phase: Phase)

  /** A prompt given to the gateway: the providers that received it and what it was drawn from. */
  datatype Sent = Sent(turn: TurnId, reached: set<Gateway.Target>, carries: set<Label>)

  datatype State = State(conv: Conversation, turns: map<TurnId, Turn>, sent: seq<Sent>)

  datatype Event =
    | Prepare(id: TurnId, question: string, window: seq<nat>)
    | Retrieve(id: TurnId, found: seq<Chunk>)
    | Review(id: TurnId, near: seq<Chunk>, call: Call, admitted: seq<nat>)
    | Remember(id: TurnId)
    | Abstain(id: TurnId, reply: string)
    | Ask(id: TurnId, call: Call, answer: Option<string>)
    | AskAgain(id: TurnId, call: Call, second: Option<string>)
    | Save(id: TurnId, complete: bool)
    | SaveOther(told: Text, complete: bool)
    | Fold(id: TurnId, older: seq<nat>, call: Call, reply: string)
    | KeepSummary(id: TurnId)

  /** What the prompt of a turn is drawn from: its history and its sources. */
  function PromptLabels(p: Prepared, chunks: seq<Chunk>): set<Label> {
    Drawn(p.history) + SourceLabels(chunks)
  }

  ghost predicate Enabled(s: State, e: Event) {
    match e
    case Prepare(id, _, window) => id !in s.turns && IsWindow(s.conv.messages, window)
    case Retrieve(id, _) => id in s.turns && s.turns[id].phase.Started?
    case Review(id, near, call, admitted) =>
      && id in s.turns && s.turns[id].phase.Started? && near != []
      && GatewayProperties.Sane(call.request)
      && (forall i :: 0 <= i < |admitted| ==> admitted[i] < |near|)
    case Remember(id) => id in s.turns && s.turns[id].phase.Found?
    case Abstain(id, _) => id in s.turns && s.turns[id].phase.Remembered? && s.turns[id].phase.chunks == []
    case Ask(id, call, _) =>
      && id in s.turns && s.turns[id].phase.Remembered? && s.turns[id].phase.chunks != []
      && GatewayProperties.Sane(call.request)
    case AskAgain(id, call, _) =>
      && id in s.turns && s.turns[id].phase.Drafted? && s.turns[id].phase.chunks != []
      && GatewayProperties.Sane(call.request)
    case Save(id, _) => id in s.turns && s.turns[id].phase.Drafted?
    case SaveOther(_, _) => true
    case Fold(id, older, call, _) =>
      && id in s.turns && s.turns[id].phase.Saved?
      && IsWindow(s.conv.messages, older) && GatewayProperties.Sane(call.request)
    case KeepSummary(id) => id in s.turns && s.turns[id].phase.Folding?
  }

  function Moved(s: State, id: TurnId, phase: Phase): State
    requires id in s.turns
  {
    s.(turns := s.turns[id := s.turns[id].(phase := phase)])
  }

  function Chosen(near: seq<Chunk>, admitted: seq<nat>): (chunks: seq<Chunk>)
    requires forall i :: 0 <= i < |admitted| ==> admitted[i] < |near|
  {
    if admitted == [] then [] else [near[admitted[0]]] + Chosen(near, admitted[1..])
  }

  ghost function Logged(s: State, id: TurnId, call: Call, allowEgress: bool, carries: set<Label>): State
    requires GatewayProperties.Sane(call.request)
  {
    s.(sent := s.sent + [Sent(id, Reached(call, allowEgress), carries)])
  }

  /** The summary and the older messages, as they are when the turn folds them. */
  function FoldedLabels(c: Conversation, older: seq<nat>): set<Label>
    requires IsWindow(c.messages, older)
  {
    Drawn(Picked(c.messages, older)) + (if c.summary.Some? then c.summary.value.drawnFrom else {})
  }

  ghost function Next(limit: Label, s: State, e: Event): State
    requires Enabled(s, e)
  {
    match e
    case Prepare(id, question, window) =>
      State(AfterSave(s.conv, Plain(question), true),
            s.turns[id := Turn(PreparedTurn(s.conv, question, window), Started)], s.sent)
    case Retrieve(id, found) => Moved(s, id, Found(found))
    case Review(id, near, call, admitted) =>
      Logged(Moved(s, id, Found(Chosen(near, admitted))), id, call, Allows(limit, MaxLabel(near)), SourceLabels(near))
    case Remember(id) =>
      var turn := s.turns[id];
      Moved(s.(conv := AfterRemember(s.conv, turn.prep, turn.phase.chunks)), id, Remembered(turn.phase.chunks))
    case Abstain(id, reply) => Moved(s, id, Drafted([], Plain(reply)))
    case Ask(id, call, answer) =>
      var prep, chunks := s.turns[id].prep, s.turns[id].phase.chunks;
      var labels := PromptLabels(prep, chunks);
      var draft := if answer.Some? then Text(answer.value, labels) else Plain("");
      Logged(Moved(s, id, Drafted(chunks, draft)), id, call, EgressAllowed(limit, prep, chunks), labels)
    case AskAgain(id, call, second) =>
      var prep, chunks := s.turns[id].prep, s.turns[id].phase.chunks;
      var labels := PromptLabels(prep, chunks);
      var draft := if second.Some? then Text(second.value, labels) else s.turns[id].phase.draft;
      Logged(Moved(s, id, Drafted(chunks, draft)), id, call, EgressAllowed(limit, prep, chunks), labels)
    case Save(id, complete) => Moved(s.(conv := AfterSave(s.conv, s.turns[id].phase.draft, complete)), id, Saved)
    case SaveOther(told, complete) => s.(conv := AfterSave(s.conv, told, complete))
    case Fold(id, older, call, reply) =>
      var labels := FoldedLabels(s.conv, older);
      Logged(Moved(s, id, Folding(Text(reply, labels))), id, call, false, Drawn(Picked(s.conv.messages, older)))
    case KeepSummary(id) =>
      Moved(s.(conv := s.conv.(summary := Some(s.turns[id].phase.folded))), id, Done)
  }

  ghost predicate IsRun(limit: Label, states: seq<State>, events: seq<Event>) {
    && |states| == |events| + 1
    && states[0] == State(Conversation(None, [], None), map[], [])
    && forall i :: 0 <= i < |events| ==> Enabled(states[i], events[i]) && states[i + 1] == Next(limit, states[i], events[i])
  }

  // ------------------------------------------------------------------ what is kept

  /** What can be said of the texts of a conversation: nothing in them is above the limit unless
      the stored class is, or the stored class bounds all but some classes. */
  datatype Rule = Within(limit: Label) | Except(free: set<Label>)

  predicate KeptLabel(rule: Rule, l: Label, stored: Option<Label>) {
    match rule
    case Within(limit) => Allows(limit, stored) ==> Allows(limit, Some(l))
    case Except(free) => l in free || (stored.Some? && Rank(l) <= Rank(stored.value))
  }

  predicate Kept(rule: Rule, labels: set<Label>, stored: Option<Label>) {
    forall l :: l in labels ==> KeptLabel(rule, l, stored)
  }

  function FreeOf(rule: Rule): set<Label> {
    if rule.Except? then rule.free else {}
  }

  lemma KeptRises(rule: Rule, labels: set<Label>, a: Option<Label>, b: Option<Label>)
    requires Kept(rule, labels, a) && AtMost(a, b)
    ensures Kept(rule, labels, b)
  {
  }

  lemma BoundedIsKept(rule: Rule, labels: set<Label>, stored: Option<Label>)
    requires Bounded(labels, stored)
    ensures Kept(rule, labels, stored)
  {
  }

  lemma KeptTogether(rule: Rule, a: set<Label>, b: set<Label>, stored: Option<Label>)
    requires Kept(rule, a, stored) && Kept(rule, b, stored)
    ensures Kept(rule, a + b, stored)
  {
  }

  /** Only complete messages are ever sent. */
  predicate Counts(rule: Rule, complete: bool) {
    complete || rule.Except?
  }

  predicate ConvKept(rule: Rule, c: Conversation) {
    && (forall m :: m in c.messages && Counts(rule, m.complete) ==> Kept(rule, m.text.drawnFrom, c.stored))
    && (c.summary.Some? ==> Kept(rule, c.summary.value.drawnFrom, c.stored))
  }

  predicate PhaseKept(rule: Rule, stored: Option<Label>, phase: Phase) {
    match phase
    case Started => true
    case Found(_) => true
    case Remembered(chunks) => Bounded(SourceLabels(chunks), stored)
    case Drafted(chunks, draft) => Bounded(SourceLabels(chunks), stored) && Kept(rule, draft.drawnFrom, stored)
    case Saved => true
    case Folding(folded) => Kept(rule, folded.drawnFrom, stored)
    case Done => true
  }

  predicate TurnKept(rule: Rule, stored: Option<Label>, turn: Turn) {
    && Kept(rule, Drawn(turn.prep.history), turn.prep.snapshot)
    && AtMost(turn.prep.snapshot, stored)
    && PhaseKept(rule, stored, turn.phase)
  }

  predicate Inv(rule: Rule, s: State) {
    && ConvKept(rule, s.conv)
    && (forall id :: id in s.turns ==> TurnKept(rule, s.conv.stored, s.turns[id]))
  }

  /** The reply of a tool, if that is what is saved, obeys the rule as it is saved. */
  predicate Obeys(rule: Rule, stored: Option<Label>, e: Event) {
    e.SaveOther? && Counts(rule, e.complete) ==> Kept(rule, e.told.drawnFrom, stored)
  }

  lemma TurnStaysKept(rule: Rule, a: Option<Label>, b: Option<Label>, turn: Turn)
    requires TurnKept(rule, a, turn) && AtMost(a, b)
    ensures TurnKept(rule, b, turn)
  {
  }

  lemma PickedKept(rule: Rule, c: Conversation, window: seq<nat>)
    requires ConvKept(rule, c) && IsWindow(c.messages, window)
    ensures Kept(rule, Drawn(Picked(c.messages, window)), c.stored)
  {
    forall l | l in Drawn(Picked(c.messages, window)) ensures KeptLabel(rule, l, c.stored) {
      var t :| t in Picked(c.messages, window) && l in t.drawnFrom;
      var m :| m in c.messages && m.complete && m.text == t;
      assert Kept(rule, m.text.drawnFrom, c.stored);
    }
  }

  lemma DrawnUnion(a: seq<Text>, b: seq<Text>)
    ensures Drawn(a + b) == Drawn(a) + Drawn(b)
  {
  }

  lemma PreparedKept(rule: Rule, c: Conversation, question: string, window: seq<nat>)
    requires ConvKept(rule, c) && IsWindow(c.messages, window)
    ensures TurnKept(rule, c.stored, Turn(PreparedTurn(c, question, window), Started))
  {
    PickedKept(rule, c, window);
    var note := SummaryNote(c);
    assert Kept(rule, Drawn(note), c.stored) by {
      if note != [] {
        assert Drawn(note) == c.summary.value.drawnFrom;
      }
    }
    DrawnUnion(note, Picked(c.messages, window));
    KeptTogether(rule, Drawn(note), Drawn(Picked(c.messages, window)), c.stored);
  }

  lemma OthersKeepInv(rule: Rule, s: State, t: State, id: TurnId)
    requires Inv(rule, s) && AtMost(s.conv.stored, t.conv.stored) && id in t.turns
    requires ConvKept(rule, t.conv) && TurnKept(rule, t.conv.stored, t.turns[id])
    requires forall other :: other in t.turns && other != id ==> other in s.turns && t.turns[other] == s.turns[other]
    ensures Inv(rule, t)
  {
    forall other | other in t.turns ensures TurnKept(rule, t.conv.stored, t.turns[other]) {
      if other != id {
        TurnStaysKept(rule, s.conv.stored, t.conv.stored, s.turns[other]);
      }
    }
  }

  lemma RememberKeepsInv(rule: Rule, limit: Label, s: State, id: TurnId)
    requires Inv(rule, s) && Enabled(s, Remember(id))
    ensures Inv(rule, Next(limit, s, Remember(id)))
  {
    var t := Next(limit, s, Remember(id));
    RememberBounds(s.conv, s.turns[id].prep, s.turns[id].phase.chunks);
    forall m | m in t.conv.messages && Counts(rule, m.complete) ensures Kept(rule, m.text.drawnFrom, t.conv.stored) {
      KeptRises(rule, m.text.drawnFrom, s.conv.stored, t.conv.stored);
    }
    TurnStaysKept(rule, s.conv.stored, t.conv.stored, s.turns[id]);
    OthersKeepInv(rule, s, t, id);
  }

  /** What a turn's prompt is drawn from is kept once its sources are recorded. */
  lemma PromptKept(rule: Rule, s: State, id: TurnId)
    requires Inv(rule, s) && id in s.turns && (s.turns[id].phase.Remembered? || s.turns[id].phase.Drafted?)
    ensures Kept(rule, PromptLabels(s.turns[id].prep, s.turns[id].phase.chunks), s.conv.stored)
  {
    var turn := s.turns[id];
    assert TurnKept(rule, s.conv.stored, turn);
    KeptRises(rule, Drawn(turn.prep.history), turn.prep.snapshot, s.conv.stored);
    BoundedIsKept(rule, SourceLabels(turn.phase.chunks), s.conv.stored);
    KeptTogether(rule, Drawn(turn.prep.history), SourceLabels(turn.phase.chunks), s.conv.stored);
  }

  lemma SaveKeepsConv(rule: Rule, c: Conversation, text: Text, complete: bool)
    requires ConvKept(rule, c) && (Counts(rule, complete) ==> Kept(rule, text.drawnFrom, c.stored))
    ensures ConvKept(rule, AfterSave(c, text, complete))
  {
  }

  lemma AskKeepsInv(rule: Rule, limit: Label, s: State, e: Event)
    requires Inv(rule, s) && Enabled(s, e) && (e.Ask? || e.AskAgain?)
    ensures Inv(rule, Next(limit, s, e))
  {
    assert TurnKept(rule, s.conv.stored, s.turns[e.id]);
    PromptKept(rule, s, e.id);
    OthersKeepInv(rule, s, Next(limit, s, e), e.id);
  }

  lemma FoldKeepsInv(rule: Rule, limit: Label, s: State, e: Event)
    requires Inv(rule, s) && Enabled(s, e) && e.Fold?
    ensures Inv(rule, Next(limit, s, e))
  {
    assert TurnKept(rule, s.conv.stored, s.turns[e.id]);
    PickedKept(rule, s.conv, e.older);
    if s.conv.summary.Some? {
      KeptTogether(rule, Drawn(Picked(s.conv.messages, e.older)), s.conv.summary.value.drawnFrom, s.conv.stored);
    } else {
      KeptTogether(rule, Drawn(Picked(s.conv.messages, e.older)), {}, s.conv.stored);
    }
    OthersKeepInv(rule, s, Next(limit, s, e), e.id);
  }

  lemma SavesKeepInv(rule: Rule, limit: Label, s: State, e: Event)
    requires Inv(rule, s) && Enabled(s, e) && Obeys(rule, s.conv.stored, e)
    requires e.Prepare? || e.Save? || e.SaveOther?
    ensures Inv(rule, Next(limit, s, e))
  {
    match e
    case Prepare(id, question, window) =>
      PreparedKept(rule, s.conv, question, window);
      BoundedIsKept(rule, {}, s.conv.stored);
      SaveKeepsConv(rule, s.conv, Plain(question), true);
      OthersKeepInv(rule, s, Next(limit, s, e), id);
    case Save(id, complete) =>
      assert TurnKept(rule, s.conv.stored, s.turns[id]);
      SaveKeepsConv(rule, s.conv, s.turns[id].phase.draft, complete);
      OthersKeepInv(rule, s, Next(limit, s, e), id);
    case SaveOther(told, complete) =>
      SaveKeepsConv(rule, s.conv, told, complete);
  }

  lemma StepKeepsInv(rule: Rule, limit: Label, s: State, e: Event)
    requires Inv(rule, s) && Enabled(s, e) && Obeys(rule, s.conv.stored, e)
    ensures Inv(rule, Next(limit, s, e))
  {
    match e
    case Prepare(_, _, _) => SavesKeepInv(rule, limit, s, e);
    case Save(_, _) => SavesKeepInv(rule, limit, s, e);
    case SaveOther(_, _) => SavesKeepInv(rule, limit, s, e);
    case Retrieve(id, _) => OthersKeepInv(rule, s, Next(limit, s, e), id);
    case Review(id, _, _, _) => OthersKeepInv(rule, s, Next(limit, s, e), id);
    case Remember(id) => RememberKeepsInv(rule, limit, s, id);
    case Abstain(id, reply) =>
      BoundedIsKept(rule, {}, s.conv.stored);
      OthersKeepInv(rule, s, Next(limit, s, e), id);
    case Ask(_, _, _) => AskKeepsInv(rule, limit, s, e);
    case AskAgain(_, _, _) => AskKeepsInv(rule, limit, s, e);
    case Fold(_, _, _, _) => FoldKeepsInv(rule, limit, s, e);
    case KeepSummary(id) =>
      assert TurnKept(rule, s.conv.stored, s.turns[id]);
      OthersKeepInv(rule, s, Next(limit, s, e), id);
  }

  /** Every reply of a tool saved before the n-th commit obeyed the rule as it was saved. */
  predicate AllObey(rule: Rule, states: seq<State>, events: seq<Event>, n: nat)
    requires n <= |events| < |states|
  {
    forall j :: 0 <= j < n ==> Obeys(rule, states[j].conv.stored, events[j])
  }

  lemma {:induction false} InvHolds(rule: Rule, limit: Label, states: seq<State>, events: seq<Event>, n: nat)
    requires IsRun(limit, states, events) && n < |states| && AllObey(rule, states, events, n)
    ensures Inv(rule, states[n])
  {
    if n > 0 {
      InvHolds(rule, limit, states, events, n - 1);
      StepKeepsInv(rule, limit, states[n - 1], events[n - 1]);
    }
  }

  // ------------------------------------------------------------------ what is sent

  /** If any of the providers that received the prompt is outside, nothing it was drawn from
      ranks above the limit, these classes apart. */
  predicate Contained(limit: Label, free: set<Label>, sent: Sent) {
    (exists t :: t in sent.reached && t.dataEgress) ==>
      forall l :: l in sent.carries && l !in free ==> Allows(limit, Some(l))
  }

  /** A rule that says something about this limit. */
  predicate Speaks(rule: Rule, limit: Label) {
    rule.Within? ==> rule.limit == limit
  }

  lemma BlockedIsContained(limit: Label, free: set<Label>, id: TurnId, call: Call, labels: set<Label>)
    requires GatewayProperties.Sane(call.request)
    ensures Contained(limit, free, Sent(id, Reached(call, false), labels))
  {
    forall t | t in Reached(call, false) ensures !t.dataEgress {
      BlockedRunsStayHome(call, t);
    }
  }

  /** A permitted prompt is all within the limit; a prompt that is not stays inside. */
  lemma AskIsContained(rule: Rule, limit: Label, id: TurnId, prep: Prepared, chunks: seq<Chunk>, call: Call)
    requires GatewayProperties.Sane(call.request) && Speaks(rule, limit)
    requires Kept(rule, Drawn(prep.history), prep.snapshot)
    ensures Contained(limit, FreeOf(rule), Sent(id, Reached(call, EgressAllowed(limit, prep, chunks)), PromptLabels(prep, chunks)))
  {
    EgressAllowedIff(limit, prep, chunks);
    if !EgressAllowed(limit, prep, chunks) {
      BlockedIsContained(limit, FreeOf(rule), id, call, PromptLabels(prep, chunks));
    }
  }

  /** Near misses go to an outside judge only if all of them may leave. */
  lemma ReviewIsContained(limit: Label, id: TurnId, near: seq<Chunk>, call: Call)
    requires GatewayProperties.Sane(call.request)
    ensures Contained(limit, {}, Sent(id, Reached(call, Allows(limit, MaxLabel(near))), SourceLabels(near)))
  {
    MaxLabelBounds(near);
    if !Allows(limit, MaxLabel(near)) {
      BlockedIsContained(limit, {}, id, call, SourceLabels(near));
    }
  }

  predicate AllContained(limit: Label, free: set<Label>, s: State) {
    forall i :: 0 <= i < |s.sent| ==> Contained(limit, free, s.sent[i])
  }

  lemma StepKeepsContained(rule: Rule, limit: Label, s: State, e: Event)
    requires Inv(rule, s) && Speaks(rule, limit) && Enabled(s, e) && AllContained(limit, FreeOf(rule), s)
    ensures AllContained(limit, FreeOf(rule), Next(limit, s, e))
  {
    if e.Ask? || e.AskAgain? {
      assert TurnKept(rule, s.conv.stored, s.turns[e.id]);
      AskIsContained(rule, limit, e.id, s.turns[e.id].prep, s.turns[e.id].phase.chunks, e.call);
    } else if e.Review? {
      ReviewIsContained(limit, e.id, e.near, e.call);
    } else if e.Fold? {
      BlockedIsContained(limit, FreeOf(rule), e.id, e.call, Drawn(Picked(s.conv.messages, e.older)));
    }
  }

  lemma {:induction false} ContainedHolds(rule: Rule, limit: Label, states: seq<State>, events: seq<Event>, n: nat)
    requires IsRun(limit, states, events) && n < |states| && AllObey(rule, states, events, n) && Speaks(rule, limit)
    ensures AllContained(limit, FreeOf(rule), states[n])
  {
    if n > 0 {
      ContainedHolds(rule, limit, states, events, n - 1);
      InvHolds(rule, limit, states, events, n - 1);
      StepKeepsContained(rule, limit, states[n - 1], events[n - 1]);
    }
  }

  // ------------------------------------------------------------------ over every run

  /** The check that a caller could make before a tool's reply is saved: unless the stored class
      already keeps later turns inside, nothing in the reply is above the limit. */
  predicate SafeToSave(limit: Label, stored: Option<Label>, reply: Text) {
    Allows(limit, stored) ==> forall l :: l in reply.drawnFrom ==> Allows(limit, Some(l))
  }

  /** If every tool's reply was safe to save, no prompt that reached a provider outside - answer,
      retry, escalation, review or summary - was drawn, through its sources, its history or the
      summary, from a class above the limit. */
  lemma NothingAboveTheLimitLeaves(
      limit: Label, states: seq<State>, events: seq<Event>, n: nat, i: nat, t: Gateway.Target, l: Label)
    requires IsRun(limit, states, events) && n < |states| && i < |states[n].sent|
    requires forall j :: 0 <= j < n && events[j].SaveOther? && events[j].complete ==>
      SafeToSave(limit, states[j].conv.stored, events[j].told)
    requires t in states[n].sent[i].reached && t.dataEgress && l in states[n].sent[i].carries
    ensures Rank(l) <= Rank(limit)
  {
    ContainedHolds(Within(limit), limit, states, events, n);
    assert Contained(limit, {}, states[n].sent[i]);
  }

  /** What the replies of tools were drawn from. */
  function ReplyLabels(events: seq<Event>): set<Label> {
    set e, l | e in events && e.SaveOther? && l in e.told.drawnFrom :: l
  }

  lemma RepliesAreFree(states: seq<State>, events: seq<Event>, n: nat)
    requires n <= |events| < |states|
    ensures AllObey(Except(ReplyLabels(events[..n])), states, events, n)
  {
    forall j | 0 <= j < n && events[j].SaveOther? ensures events[j].told.drawnFrom <= ReplyLabels(events[..n]) {
      assert events[..n][j] == events[j];
    }
  }

  /** In every run, whatever leaves above the limit was drawn from a saved tool's reply. */
  lemma OnlyRepliesLeak(
      limit: Label, states: seq<State>, events: seq<Event>, n: nat, i: nat, t: Gateway.Target, l: Label)
    requires IsRun(limit, states, events) && n < |states| && i < |states[n].sent|
    requires t in states[n].sent[i].reached && t.dataEgress && l in states[n].sent[i].carries
    ensures Rank(l) <= Rank(limit) || exists j :: 0 <= j < n && events[j].SaveOther? && l in events[j].told.drawnFrom
  {
    var free := ReplyLabels(events[..n]);
    RepliesAreFree(states, events, n);
    ContainedHolds(Except(free), limit, states, events, n);
    assert Contained(limit, free, states[n].sent[i]);
    if l in free {
      var e :| e in events[..n] && e.SaveOther? && l in e.told.drawnFrom;
    }
  }

  /** The later conversation has the messages of the earlier and at least its class. */
  predicate Extends(a: Conversation, b: Conversation) {
    AtMost(a.stored, b.stored) && a.messages <= b.messages
  }

  lemma StepOnlyRises(limit: Label, s: State, e: Event)
    requires Enabled(s, e)
    ensures Extends(s.conv, Next(limit, s, e).conv)
  {
    if e.Remember? {
      MostSensitiveOfTwo(s.conv.stored, MaxLabel(s.turns[e.id].phase.chunks));
    }
  }

  /** The stored class only rises, and messages stay. */
  lemma {:induction false} StoredOnlyRises(limit: Label, states: seq<State>, events: seq<Event>, m: nat, n: nat)
    requires IsRun(limit, states, events) && m <= n < |states|
    ensures Extends(states[m].conv, states[n].conv)
    decreases n - m
  {
    if m < n {
      StoredOnlyRises(limit, states, events, m, n - 1);
      StepOnlyRises(limit, states[n - 1], events[n - 1]);
      ExtendsTransitive(states[m].conv, states[n - 1].conv, Next(limit, states[n - 1], events[n - 1]).conv);
    }
  }

  lemma ExtendsTransitive(a: Conversation, b: Conversation, c: Conversation)
    requires Extends(a, b) && Extends(b, c)
    ensures Extends(a, c)
  {
  }

  predicate ConvBounded(c: Conversation) {
    && (forall i :: 0 <= i < |c.messages| ==> Bounded(c.messages[i].text.drawnFrom, c.stored))
    && (c.summary.Some? ==> Bounded(c.summary.value.drawnFrom, c.stored))
  }

  /** The stored class bounds every saved tool's reply. */
  predicate RepliesBounded(events: seq<Event>, n: nat, stored: Option<Label>)
    requires n <= |events|
  {
    forall j :: 0 <= j < n && events[j].SaveOther? ==> Bounded(events[j].told.drawnFrom, stored)
  }

  lemma BoundedIfReplies(limit: Label, states: seq<State>, events: seq<Event>, n: nat)
    requires IsRun(limit, states, events) && n < |states| && RepliesBounded(events, n, states[n].conv.stored)
    ensures ConvBounded(states[n].conv)
  {
    var c, free := states[n].conv, ReplyLabels(events[..n]);
    RepliesAreFree(states, events, n);
    InvHolds(Except(free), limit, states, events, n);
    forall l | l in free ensures c.stored.Some? && Rank(l) <= Rank(c.stored.value) {
      var e :| e in events[..n] && e.SaveOther? && l in e.told.drawnFrom;
      assert Bounded(e.told.drawnFrom, c.stored);
    }
    FreeAreBounded(free, c);
  }

  lemma FreeAreBounded(free: set<Label>, c: Conversation)
    requires ConvKept(Except(free), c) && Bounded(free, c.stored)
    ensures ConvBounded(c)
  {
    forall i | 0 <= i < |c.messages| ensures Bounded(c.messages[i].text.drawnFrom, c.stored) {
      assert c.messages[i] in c.messages && Kept(Except(free), c.messages[i].text.drawnFrom, c.stored);
    }
  }

  /** A saved reply is a message for good. */
  lemma ReplyIsAMessage(limit: Label, states: seq<State>, events: seq<Event>, j: nat, n: nat) returns (at: nat)
    requires IsRun(limit, states, events) && j < n < |states| && events[j].SaveOther?
    ensures at < |states[n].conv.messages| && states[n].conv.messages[at].text == events[j].told
  {
    at := |states[j].conv.messages|;
    assert states[j + 1] == Next(limit, states[j], events[j]);
    StoredOnlyRises(limit, states, events, j + 1, n);
    assert states[j + 1].conv.messages[at].text == events[j].told;
  }

  /** At every commit the stored class bounds what every stored message, complete or not, and the
      summary were drawn from exactly if it bounds every saved tool's reply. */
  lemma StoredBoundsTheConversation(limit: Label, states: seq<State>, events: seq<Event>, n: nat)
    requires IsRun(limit, states, events) && n < |states|
    ensures ConvBounded(states[n].conv) <==> RepliesBounded(events, n, states[n].conv.stored)
  {
    if RepliesBounded(events, n, states[n].conv.stored) {
      BoundedIfReplies(limit, states, events, n);
    }
    if ConvBounded(states[n].conv) {
      forall j | 0 <= j < n && events[j].SaveOther? ensures Bounded(events[j].told.drawnFrom, states[n].conv.stored) {
        var at := ReplyIsAMessage(limit, states, events, j, n);
      }
    }
  }

  /** The stored class bounds the conversation all along a run exactly if it bounded every tool's
      reply as the reply was saved. */
  lemma BoundedThroughoutIff(limit: Label, states: seq<State>, events: seq<Event>)
    requires IsRun(limit, states, events)
    ensures (forall n :: 0 <= n < |states| ==> ConvBounded(states[n].conv)) <==>
      forall j :: 0 <= j < |events| && events[j].SaveOther? ==> Bounded(events[j].told.drawnFrom, states[j].conv.stored)
  {
    if forall n :: 0 <= n < |states| ==> ConvBounded(states[n].conv) {
      forall j | 0 <= j < |events| && events[j].SaveOther?
        ensures Bounded(events[j].told.drawnFrom, states[j].conv.stored)
      {
        var at := ReplyIsAMessage(limit, states, events, j, j + 1);
        assert states[j + 1] == Next(limit, states[j], events[j]) && ConvBounded(states[j + 1].conv);
      }
    }
    if forall j :: 0 <= j < |events| && events[j].SaveOther? ==> Bounded(events[j].told.drawnFrom, states[j].conv.stored) {
      forall n | 0 <= n < |states| ensures ConvBounded(states[n].conv) {
        forall j | 0 <= j < n && events[j].SaveOther? ensures Bounded(events[j].told.drawnFrom, states[n].conv.stored) {
          StoredOnlyRises(limit, states, events, j, n);
        }
        BoundedIfReplies(limit, states, events, n);
      }
    }
  }

  // ------------------------------------------------------------------ the check is exact

  /** A call that an outside provider answers at once. */
  function OutsideCall(): Call {
    var t := OutsideTarget();
    Call(Gateway.Request([t], {}, 1.0, Resilience.Config(3, 30.0), 0.5, 8.0),
         [Gateway.Reply(Gateway.Arrives(Gateway.Usage(0, 0), Gateway.End(Gateway.Usage(0, 0))), 0.0, 0.0, 0.0)],
         Gateway.World(0.0, 0, map[]))
  }

  function OutsideTarget(): Gateway.Target {
    Gateway.Target("outside", true, true, 1.0, 1, 0.0, 0.0)
  }

  lemma OutsideIsReached()
    ensures GatewayProperties.Sane(OutsideCall().request)
    ensures OutsideTarget() in Reached(OutsideCall(), true) && OutsideTarget().dataEgress
  {
    var call, t := OutsideCall(), OutsideTarget();
    var r := Issued(call, true);
    assert r.targets == [t] && Gateway.SaneTarget(t);
    Gateway.WalkAtTarget(r, call.script, 0, call.world);
    var w := Gateway.AfterAdmission(r, call.world, t);
    assert Gateway.SkipFor(r, call.world, t).None?;
    var tried := Gateway.Try(r, call.script, t, 1, w);
    Gateway.WalkAfterTry(r, call.script, 0, 1, w, tried.step, tried.world);
    assert tried.step.Answers?;
    assert Reaches(r, call, t);
  }

  lemma OneStepMore(limit: Label, states: seq<State>, events: seq<Event>, e: Event) returns (more: seq<State>)
    requires IsRun(limit, states, events) && Enabled(states[|events|], e)
    ensures IsRun(limit, more, events + [e])
    ensures more[|events|] == states[|events|] && more[|events| + 1] == Next(limit, states[|events|], e)
  {
    more := states + [Next(limit, states[|events|], e)];
  }

  /** A turn that has only public sources and a permitted history sends both to an outside
      provider. */
  lemma PublicTurnLeaves(limit: Label, s: State, id: TurnId)
    requires id in s.turns && s.turns[id].phase == Remembered([Chunk("", Public)])
    requires Allows(limit, s.turns[id].prep.snapshot)
    ensures Enabled(s, Ask(id, OutsideCall(), None))
    ensures var t := Next(limit, s, Ask(id, OutsideCall(), None));
      && t.sent != [] && OutsideTarget() in t.sent[|t.sent| - 1].reached
      && Drawn(s.turns[id].prep.history) <= t.sent[|t.sent| - 1].carries
  {
    OutsideIsReached();
    EgressAllowedIff(limit, s.turns[id].prep, [Chunk("", Public)]);
  }

  /** The last message saved, read by a turn that finds one public source. */
  lemma ReadByNextTurn(limit: Label, states: seq<State>, events: seq<Event>, id: TurnId)
    returns (states': seq<State>, events': seq<Event>)
    requires IsRun(limit, states, events) && id !in states[|events|].turns
    requires var c := states[|events|].conv;
      c.messages != [] && c.messages[|c.messages| - 1].complete && Allows(limit, c.stored)
    ensures IsRun(limit, states', events') && events <= events'
    ensures var s, c := states'[|events'|], states[|events|].conv;
      && id in s.turns && s.turns[id].phase == Remembered([Chunk("", Public)]) && s.turns[id].prep.snapshot == c.stored
      && c.messages[|c.messages| - 1].text in s.turns[id].prep.history
  {
    var n := |states[|events|].conv.messages|;
    var text := states[|events|].conv.messages[n - 1].text;
    var s1 := OneStepMore(limit, states, events, Prepare(id, "", [n - 1]));
    var e1 := events + [Prepare(id, "", [n - 1])];
    assert Picked(states[|events|].conv.messages, [n - 1]) == [text] + [];
    var s2 := OneStepMore(limit, s1, e1, Retrieve(id, [Chunk("", Public)]));
    var e2 := e1 + [Retrieve(id, [Chunk("", Public)])];
    var s3 := OneStepMore(limit, s2, e2, Remember(id));
    states', events' := s3, e2 + [Remember(id)];
  }

  /** The check is exact: wherever a run has come, saving a tool's reply that is not safe to save
      lets a later turn send it out. */
  lemma UnsafeSaveLeaks(limit: Label, states: seq<State>, events: seq<Event>, told: Text, id: TurnId)
    returns (states': seq<State>, events': seq<Event>, l: Label)
    requires IsRun(limit, states, events) && id !in states[|events|].turns
    requires !SafeToSave(limit, states[|events|].conv.stored, told)
    ensures IsRun(limit, states', events') && events + [SaveOther(told, true)] <= events'
    ensures l in told.drawnFrom && Rank(l) > Rank(limit)
    ensures var sent := states'[|events'|].sent;
      && sent != [] && l in sent[|sent| - 1].carries
      && (exists t :: t in sent[|sent| - 1].reached && t.dataEgress)
  {
    l :| l in told.drawnFrom && !Allows(limit, Some(l));
    var s1 := OneStepMore(limit, states, events, SaveOther(told, true));
    states', events' := ReadByNextTurn(limit, s1, events + [SaveOther(told, true)], id);
    var e := Ask(id, OutsideCall(), None);
    PublicTurnLeaves(limit, states'[|events'|], id);
    states' := OneStepMore(limit, states', events', e);
    events' := events' + [e];
    OutsideIsReached();
  }

  /** From the first message on: a search whose hits are confidential is told, and a public
      question sends what it told outside although the limit is internal. */
  lemma SearchReplyLeaks() returns (states: seq<State>, events: seq<Event>)
    ensures IsRun(Internal, states, events) && |events| >= 2
    ensures events[0] == SaveOther(Text("I found 1 passage(s): D-7@v1#Redundancies", {Confidential}), true)
    ensures var sent := states[|events|].sent;
      && sent != [] && Confidential in sent[|sent| - 1].carries
      && (exists t :: t in sent[|sent| - 1].reached && t.dataEgress)
  {
    var told := Text("I found 1 passage(s): D-7@v1#Redundancies", {Confidential});
    assert Confidential in told.drawnFrom && !Allows(Internal, Some(Confidential));
    var l;
    states, events, l := UnsafeSaveLeaks(Internal, [State(Conversation(None, [], None), map[], [])], [], told, 0);
    assert l == Confidential;
  }

  /** Turns are never prepared twice. */
  lemma {:induction false} TurnKeepsPrep(limit: Label, states: seq<State>, events: seq<Event>, m: nat, n: nat, id: TurnId)
    requires IsRun(limit, states, events) && m <= n < |states| && id in states[m].turns
    ensures id in states[n].turns && states[n].turns[id].prep == states[m].turns[id].prep
    decreases n - m
  {
    if m < n {
      TurnKeepsPrep(limit, states, events, m, n - 1, id);
      assert states[n] == Next(limit, states[n - 1], events[n - 1]);
    }
  }

  /** Once a class above the limit is stored, every turn prepared from then on keeps all its
      answer calls inside, whatever it retrieves itself. */
  lemma LaterTurnsStayInside(
      limit: Label, states: seq<State>, events: seq<Event>, m: nat, n: nat, id: TurnId, t: Gateway.Target)
    requires IsRun(limit, states, events) && m < n < |events|
    requires !Allows(limit, states[m].conv.stored) && id !in states[m].turns
    requires (events[n].Ask? || events[n].AskAgain?) && events[n].id == id
    requires t in states[n + 1].sent[|states[n + 1].sent| - 1].reached
    ensures !t.dataEgress
  {
    var p := PreparedAt(limit, states, events, m, n, id);
    StoredOnlyRises(limit, states, events, m, p);
    TurnKeepsPrep(limit, states, events, p + 1, n, id);
    var prep, chunks := states[n].turns[id].prep, states[n].turns[id].phase.chunks;
    EgressAllowedIff(limit, prep, chunks);
    BlockedRunsStayHome(events[n].call, t);
  }

  /** The step that prepared a turn known at n but not at m. */
  lemma {:induction false} PreparedAt(
      limit: Label, states: seq<State>, events: seq<Event>, m: nat, n: nat, id: TurnId) returns (p: nat)
    requires IsRun(limit, states, events) && m <= n < |states|
    requires id !in states[m].turns && id in states[n].turns
    ensures m <= p < n && events[p].Prepare? && events[p].id == id
    ensures id in states[p + 1].turns && states[p + 1].turns[id].prep.snapshot == states[p].conv.stored
    decreases n - m
  {
    assert states[n] == Next(limit, states[n - 1], events[n - 1]);
    if id in states[n - 1].turns {
      p := PreparedAt(limit, states, events, m, n - 1, id);
    } else {
      p := n - 1;
    }
  }
}
