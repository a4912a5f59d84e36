/** The finished answer of `rag.py`: repaired sentence by sentence, its markers validated and its
    citations listed. */
module Answers {
  import opened Citations
  import opened CitationProperties
  import opened CitationEffects

  /** A sentence and the text up to the next one. */
  datatype Part = Part(sentence: Sentence, boundary: string)

  datatype GroundedAnswer = GroundedAnswer(
    text: Sentence, citations: seq<nat>, abstained: bool, invalid: nat, repointed: nat)

  // ------------------------------------------------------------------ specification

  function RepairedPart(part: Part, have: Sources): Part {
    Part(Repaired(part.sentence, have).sentence, part.boundary)
  }

  function RepairedParts(parts: seq<Part>, have: Sources): (out: seq<Part>)
    ensures |out| == |parts|
    ensures forall i :: 0 <= i < |parts| ==> out[i] == RepairedPart(parts[i], have)
  {
    seq(|parts|, i requires 0 <= i < |parts| => RepairedPart(parts[i], have))
  }

  function Changes(parts: seq<Part>, have: Sources): nat {
    if parts == [] then 0
    else Changes(parts[..|parts| - 1], have) + Repaired(parts[|parts| - 1].sentence, have).changes
  }

  function Flat(parts: seq<Part>): Sentence {
    if parts == [] then []
    else Flat(parts[..|parts| - 1]) + parts[|parts| - 1].sentence + [Words(parts[|parts| - 1].boundary, {})]
  }

  predicate IsInvalid(t: Token, have: Sources) {
    t.Marker? && !Provided(have, t.n)
  }

  function WithoutInvalid(tokens: Sentence, have: Sources): Sentence {
    if tokens == [] then []
    else
      var last := tokens[|tokens| - 1];
      WithoutInvalid(tokens[..|tokens| - 1], have) + (if IsInvalid(last, have) then [] else [last])
  }

  function CountInvalid(tokens: Sentence, have: Sources): nat {
    if tokens == [] then 0
    else CountInvalid(tokens[..|tokens| - 1], have) + (if IsInvalid(tokens[|tokens| - 1], have) then 1 else 0)
  }

  function CountMarkers(tokens: Sentence): nat {
    if tokens == [] then 0
    else CountMarkers(tokens[..|tokens| - 1]) + (if tokens[|tokens| - 1].Marker? then 1 else 0)
  }

  /** The numbers of the valid markers, each where it first occurs. */
  function FirstUses(tokens: Sentence, have: Sources): seq<nat> {
    if tokens == [] then []
    else
      var before, last := FirstUses(tokens[..|tokens| - 1], have), tokens[|tokens| - 1];
      if last.Marker? && Provided(have, last.n) && last.n !in before then before + [last.n] else before
  }

  /** The one sentence of an abstention. */
  const ABSTENTION: Sentence := [Words("I couldn't find this in the approved knowledge available to you.", {})]

  function Finalized(parts: seq<Part>, have: Sources, abstains: bool): GroundedAnswer {
    if abstains then GroundedAnswer(ABSTENTION, [], true, CountMarkers(Flat(parts)), 0)
    else
      var tokens := Flat(RepairedParts(parts, have));
      GroundedAnswer(WithoutInvalid(tokens, have), FirstUses(tokens, have), false, CountInvalid(tokens, have),
                     Changes(parts, have))
  }

  // ------------------------------------------------------------------ the methods

  method RepointPart(part: Part, have: Sources) returns (out: Part, changed: nat)
    ensures out == RepairedPart(part, have) && changed == Repaired(part.sentence, have).changes
  {
    var sentence, n := RepointSentence(part.sentence, have);
    out, changed := Part(sentence, part.boundary), n;
  }

  lemma OnePartMore(parts: seq<Part>, i: nat, have: Sources)
    requires i < |parts|
    ensures RepairedParts(parts[..i + 1], have) == RepairedParts(parts[..i], have) + [RepairedPart(parts[i], have)]
    ensures Changes(parts[..i + 1], have) == Changes(parts[..i], have) + Repaired(parts[i].sentence, have).changes
  {
    assert parts[..i + 1][..i] == parts[..i];
  }

  method RepointCitations(parts: seq<Part>, have: Sources) returns (out: seq<Part>, changed: nat)
    ensures out == RepairedParts(parts, have) && changed == Changes(parts, have)
  {
    out, changed := [], 0;
    for i := 0 to |parts|
      invariant out == RepairedParts(parts[..i], have) && changed == Changes(parts[..i], have)
    {
      OnePartMore(parts, i, have);
      var part, n := RepointPart(parts[i], have);
      out := out + [part];
      changed := changed + n;
    }
    assert parts[..|parts|] == parts;
  }

  method CheckMarkers(tokens: Sentence, have: Sources) returns (cleaned: Sentence, order: seq<nat>, invalid: nat)
    ensures cleaned == WithoutInvalid(tokens, have)
    ensures order == FirstUses(tokens, have) && invalid == CountInvalid(tokens, have)
  {
    cleaned, order, invalid := [], [], 0;
    for i := 0 to |tokens|
      invariant cleaned == WithoutInvalid(tokens[..i], have)
      invariant order == FirstUses(tokens[..i], have) && invalid == CountInvalid(tokens[..i], have)
    {
      assert tokens[..i + 1][..i] == tokens[..i];
      var t := tokens[i];
      if !t.Marker? {
        cleaned := cleaned + [t];
      } else if Provided(have, t.n) {
        if t.n !in order {
          order := order + [t.n];
        }
        cleaned := cleaned + [t];
      } else {
        invalid := invalid + 1;
      }
    }
    assert tokens[..|tokens|] == tokens;
  }

  method Finalize(parts: seq<Part>, have: Sources, abstains: bool) returns (answer: GroundedAnswer)
    ensures answer == Finalized(parts, have, abstains)
  {
    if abstains {
      return GroundedAnswer(ABSTENTION, [], true, CountMarkers(Flat(parts)), 0);
    }
    var repaired, repointed := RepointCitations(parts, have);
    var cleaned, order, invalid := CheckMarkers(Flat(repaired), have);
    answer := GroundedAnswer(cleaned, order, false, invalid, repointed);
  }

  // ------------------------------------------------------------------ the list of citations

  /** The first position of a marker. */
  function FirstAt(tokens: Sentence, n: nat): (i: nat)
    requires Marker(n) in tokens
    ensures i < |tokens| && tokens[i] == Marker(n) && Marker(n) !in tokens[..i]
  {
    if tokens[0] == Marker(n) then 0
    else
      assert tokens == [tokens[0]] + tokens[1..];
      var i := FirstAt(tokens[1..], n);
      assert tokens[..i + 1] == [tokens[0]] + tokens[1..][..i];
      i + 1
  }

  lemma FirstAtIsUnique(tokens: Sentence, n: nat, i: nat)
    requires i < |tokens| && tokens[i] == Marker(n) && Marker(n) !in tokens[..i]
    ensures FirstAt(tokens, n) == i
  {
    var j := FirstAt(tokens, n);
  }

  lemma FirstAtStays(tokens: Sentence, last: Token, n: nat)
    requires Marker(n) in tokens
    ensures FirstAt(tokens + [last], n) == FirstAt(tokens, n)
  {
    var i := FirstAt(tokens, n);
    assert (tokens + [last])[..i] == tokens[..i];
    FirstAtIsUnique(tokens + [last], n, i);
  }

  /** The listed numbers are exactly those of the valid markers, in order of first use. */
  lemma {:induction false} CitationsInOrderOfFirstUse(tokens: Sentence, have: Sources)
    ensures var order := FirstUses(tokens, have);
      && (forall n :: n in order <==> Provided(have, n) && Marker(n) in tokens)
      && (forall i, j :: 0 <= i < j < |order| ==> FirstAt(tokens, order[i]) < FirstAt(tokens, order[j]))
  {
    if tokens != [] {
      var init, last := tokens[..|tokens| - 1], tokens[|tokens| - 1];
      CitationsInOrderOfFirstUse(init, have);
      assert tokens == init + [last];
      forall n | Marker(n) in init ensures FirstAt(tokens, n) == FirstAt(init, n) {
        FirstAtStays(init, last, n);
      }
      if last.Marker? && Marker(last.n) !in init {
        FirstAtIsUnique(tokens, last.n, |init|);
      }
    }
  }

  /** Only invalid markers are taken out, and each is counted. */
  lemma {:induction false} OnlyInvalidMarkersGo(tokens: Sentence, have: Sources)
    ensures var cleaned := WithoutInvalid(tokens, have);
      && |cleaned| + CountInvalid(tokens, have) == |tokens|
      && (forall t :: t in cleaned <==> t in tokens && !IsInvalid(t, have))
      && WordsOf(cleaned) == WordsOf(tokens)
  {
    if tokens != [] {
      var init, last := tokens[..|tokens| - 1], tokens[|tokens| - 1];
      OnlyInvalidMarkersGo(init, have);
      assert tokens == init + [last];
      WordsOfUnion(init, [last]);
      WordsOfUnion(WithoutInvalid(init, have), if IsInvalid(last, have) then [] else [last]);
    }
  }

  lemma {:induction false} FlatHas(parts: seq<Part>, i: nat, t: Token)
    requires i < |parts| && t in parts[i].sentence
    ensures t in Flat(parts)
  {
    if i < |parts| - 1 {
      FlatHas(parts[..|parts| - 1], i, t);
    }
  }

  /** In a finished answer the markers left in the text are exactly the listed citations, all of
      retrieved sources; and every figure that some source has, stated in a sentence that cited a
      retrieved source, is in a listed one. */
  lemma {:induction false} FinishedAnswer(parts: seq<Part>, have: Sources, k: nat, f: Figure)
    ensures var a := Finalized(parts, have, false);
      && (forall n :: n in a.citations <==> Marker(n) in a.text)
      && (forall n :: n in a.citations ==> Provided(have, n))
      && (k < |parts| && Cited(parts[k].sentence, have) != {} && f in Stated(parts[k].sentence) && f in Known(have) ==>
            Covers(have, a.citations, f))
  {
    var repaired := RepairedParts(parts, have);
    var tokens := Flat(repaired);
    CitationsInOrderOfFirstUse(tokens, have);
    OnlyInvalidMarkersGo(tokens, have);
    forall n | Marker(n) in WithoutInvalid(tokens, have) ensures Provided(have, n) && Marker(n) in tokens {
      assert !IsInvalid(Marker(n), have);
    }
    forall n | Provided(have, n) && Marker(n) in tokens ensures Marker(n) in WithoutInvalid(tokens, have) {
      assert !IsInvalid(Marker(n), have);
    }
    if k < |parts| && Cited(parts[k].sentence, have) != {} && f in Stated(parts[k].sentence) && f in Known(have) {
      EveryKnownFigureIsCovered(parts[k].sentence, have, f);
      var n :| n in Cited(repaired[k].sentence, have) && f in FiguresIn(have, n);
      MarkersHas(repaired[k].sentence, n);
      FlatHas(repaired, k, Marker(n));
    }
  }

  /** Repairing an answer twice is repairing it once, and the second time counts nothing. */
  lemma {:induction false} RepairTwiceIsOnce(parts: seq<Part>, have: Sources)
    ensures RepairedParts(RepairedParts(parts, have), have) == RepairedParts(parts, have)
    ensures Changes(RepairedParts(parts, have), have) == 0
  {
    var once := RepairedParts(parts, have);
    if parts != [] {
      var n := |parts| - 1;
      RepairTwiceIsOnce(parts[..n], have);
      assert once[..n] == RepairedParts(parts[..n], have);
      RepairIsIdempotent(parts[n].sentence, have);
    }
    forall i | 0 <= i < |parts| ensures RepairedParts(once, have)[i] == once[i] {
      RepairIsIdempotent(parts[i].sentence, have);
    }
  }

  // ------------------------------------------------------------------ the text as a whole

  /** The tokens without the markers of no retrieved source, in order. */
  function Kept(tokens: Sentence, sources: nat): Sentence {
    if tokens == [] then []
    else if tokens[0].Marker? && !(1 <= tokens[0].n <= sources) then Kept(tokens[1..], sources)
    else [tokens[0]] + Kept(tokens[1..], sources)
  }

  lemma {:induction false} KeptOfUnion(a: Sentence, b: Sentence, sources: nat)
    ensures Kept(a + b, sources) == Kept(a, sources) + Kept(b, sources)
  {
    if a == [] {
      assert a + b == b;
    } else {
      assert (a + b)[0] == a[0] && (a + b)[1..] == a[1..] + b;
      KeptOfUnion(a[1..], b, sources);
    }
  }

  lemma {:induction false} RestIsKept(tokens: Sentence, have: Sources)
    ensures WithoutInvalid(tokens, have) == Kept(tokens, |have|)
    ensures CountInvalid(tokens, have) == |tokens| - |Kept(tokens, |have|)|
  {
    if tokens != [] {
      var init, last := tokens[..|tokens| - 1], tokens[|tokens| - 1];
      RestIsKept(init, have);
      assert tokens == init + [last];
      KeptOfUnion(init, [last], |have|);
    }
  }

  function InOrder(parts: seq<Part>): Sentence {
    if parts == [] then [] else parts[0].sentence + [Words(parts[0].boundary, {})] + InOrder(parts[1..])
  }

  lemma {:induction false} InOrderOfUnion(a: seq<Part>, b: seq<Part>)
    ensures InOrder(a + b) == InOrder(a) + InOrder(b)
  {
    if a == [] {
      assert a + b == b;
    } else {
      assert (a + b)[0] == a[0] && (a + b)[1..] == a[1..] + b;
      InOrderOfUnion(a[1..], b);
      Regroup(a[0].sentence + [Words(a[0].boundary, {})], InOrder(a[1..]), InOrder(b));
    }
  }

  lemma Regroup(a: Sentence, b: Sentence, c: Sentence)
    ensures a + (b + c) == a + b + c
  {
  }

  lemma {:induction false} FlatIsInOrder(parts: seq<Part>)
    ensures Flat(parts) == InOrder(parts)
  {
    if parts != [] {
      var n := |parts| - 1;
      FlatIsInOrder(parts[..n]);
      assert parts == parts[..n] + [parts[n]];
      InOrderOfUnion(parts[..n], [parts[n]]);
      assert InOrder([parts[n]]) == parts[n].sentence + [Words(parts[n].boundary, {})] + [];
      Regroup(InOrder(parts[..n]), parts[n].sentence, [Words(parts[n].boundary, {})]);
    }
  }

  /** The repaired sentences in order, with what was between them. */
  function RepairedText(parts: seq<Part>, have: Sources): Sentence {
    if parts == [] then []
    else
      Repaired(parts[0].sentence, have).sentence + [Words(parts[0].boundary, {})] + RepairedText(parts[1..], have)
  }

  lemma {:induction false} RepairedInOrder(parts: seq<Part>, have: Sources)
    ensures InOrder(RepairedParts(parts, have)) == RepairedText(parts, have)
  {
    if parts != [] {
      RepairedInOrder(parts[1..], have);
      assert RepairedParts(parts, have)[1..] == RepairedParts(parts[1..], have);
    }
  }

  function TotalChanges(parts: seq<Part>, have: Sources): nat {
    if parts == [] then 0 else Repaired(parts[0].sentence, have).changes + TotalChanges(parts[1..], have)
  }

  lemma {:induction false} TotalMore(parts: seq<Part>, last: Part, have: Sources)
    ensures TotalChanges(parts + [last], have) == TotalChanges(parts, have) + Repaired(last.sentence, have).changes
  {
    if parts == [] {
      assert parts + [last] == [last];
    } else {
      assert (parts + [last])[1..] == parts[1..] + [last];
      TotalMore(parts[1..], last, have);
    }
  }

  lemma {:induction false} ChangesAreSummed(parts: seq<Part>, have: Sources)
    ensures Changes(parts, have) == TotalChanges(parts, have)
  {
    if parts != [] {
      var n := |parts| - 1;
      ChangesAreSummed(parts[..n], have);
      TotalMore(parts[..n], parts[n], have);
      assert parts == parts[..n] + [parts[n]];
    }
  }

  /** A finished answer is its sentences in order, each repaired by itself, with what was between
      them, all without the invalid markers; those and the changes are counted over all. */
  lemma AnswerInOrder(parts: seq<Part>, have: Sources)
    ensures var a, whole := Finalized(parts, have, false), RepairedText(parts, have);
      && a.text == Kept(whole, |have|)
      && a.invalid == |whole| - |a.text|
      && a.repointed == TotalChanges(parts, have)
      && !a.abstained
  {
    FlatIsInOrder(RepairedParts(parts, have));
    RepairedInOrder(parts, have);
    RestIsKept(Flat(RepairedParts(parts, have)), have);
    ChangesAreSummed(parts, have);
  }

  lemma {:induction false} MarkersAreMarks(tokens: Sentence, at: nat)
    ensures CountMarkers(tokens) == |Marks(tokens, at)|
  {
    if tokens != [] {
      var init, last := tokens[..|tokens| - 1], tokens[|tokens| - 1];
      MarkersAreMarks(init, at);
      assert tokens == init + [last];
      MarksOfUnion(init, [last], at);
    }
  }

  /** An abstention is the one fixed sentence, without citations; every marker of what was drafted
      counts as invalid. */
  lemma AbstentionCitesNothing(parts: seq<Part>, have: Sources)
    ensures var a := Finalized(parts, have, true);
      && |a.text| == 1 && a.text[0].Words?
      && a.text[0].text == "I couldn't find this in the approved knowledge available to you."
      && a.citations == [] && a.abstained && a.repointed == 0
      && a.invalid == |Marks(InOrder(parts), 0)|
  {
    FlatIsInOrder(parts);
    MarkersAreMarks(Flat(parts), 0);
  }
}
