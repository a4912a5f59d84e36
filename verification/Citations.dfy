/**
  Citation repair and validation of `rag.py`.  A sentence is a list of tokens: the regular
  expressions that find markers, figures and the words between two mentions of one source have
  already been applied.
 */
module Citations {
  type Figure = string

  /** `Gap` is white space, `Conj` a comma or "and" between two mentions, `Source` the word. */
  datatype Token = Words(text: string, figures: set<Figure>) | Gap | Conj | Source | Marker(n: nat)

  type Sentence = seq<Token>

  /** The figures of each retrieved source; a source is cited by its position from 1 on. */
  type Sources = seq<set<Figure>>

  predicate Provided(have: Sources, n: nat) {
    1 <= n <= |have|
  }

  /** The figures of source n, none if there is no such source. */
  function FiguresIn(have: Sources, n: nat): set<Figure> {
    if Provided(have, n) then have[n - 1] else {}
  }

  // ------------------------------------------------------------------ what a sentence says

  function Markers(s: Sentence): set<nat> {
    set t | t in s && t.Marker? :: t.n
  }

  function Cited(s: Sentence, have: Sources): set<nat> {
    set n | n in Markers(s) && Provided(have, n)
  }

  function Stated(s: Sentence): set<Figure> {
    set t, f | t in s && t.Words? && f in t.figures :: f
  }

  function FiguresOf(have: Sources, numbers: set<nat>): set<Figure> {
    set n, f | n in numbers && f in FiguresIn(have, n) :: f
  }

  function Known(have: Sources): set<Figure> {
    set h, f | h in have && f in h :: f
  }

  /** The stated figures that some source has and no cited one does. */
  function Missing(s: Sentence, have: Sources): set<Figure> {
    (Stated(s) - FiguresOf(have, Cited(s, have))) * Known(have)
  }

  /** Cited sources with none of the stated figures. */
  function Dead(s: Sentence, have: Sources): set<nat> {
    set n | n in Cited(s, have) && FiguresIn(have, n) * Stated(s) == {}
  }

  // ------------------------------------------------------------------ the greedy cover

  /** How many of the figures a source has. */
  function Gain(have: Sources, missing: set<Figure>, n: nat): nat {
    |FiguresIn(have, n) * missing|
  }

  /** The source among the first k with the most of the figures, the earliest if several. */
  function Best(have: Sources, missing: set<Figure>, k: nat): (best: nat)
    requires 1 <= k <= |have|
    ensures 1 <= best <= k
    ensures forall j :: 1 <= j <= k ==> Gain(have, missing, j) <= Gain(have, missing, best)
    ensures forall j :: 1 <= j < best ==> Gain(have, missing, j) < Gain(have, missing, best)
  {
    if k == 1 then 1
    else
      var best := Best(have, missing, k - 1);
      if Gain(have, missing, k) > Gain(have, missing, best) then k else best
  }

  function Cover(have: Sources, missing: set<Figure>): seq<nat>
    decreases |missing|
  {
    if missing == {} || have == [] then []
    else
      var found := FiguresIn(have, Best(have, missing, |have|));
      if found * missing == {} then []
      else
        FewerMissing(missing, found);
        [Best(have, missing, |have|)] + Cover(have, missing - found)
  }

  lemma FewerMissing(missing: set<Figure>, found: set<Figure>)
    requires found * missing != {}
    ensures |missing - found| < |missing|
  {
    assert missing == (missing - found) + (found * missing);
  }

  // ------------------------------------------------------------------ rewriting

  function Replaced(s: Sentence, dead: set<nat>, other: nat): (r: Sentence)
    ensures |r| == |s|
    ensures forall i :: 0 <= i < |s| ==> r[i] == if s[i].Marker? && s[i].n in dead then Marker(other) else s[i]
  {
    seq(|s|, i requires 0 <= i < |s| => if s[i].Marker? && s[i].n in dead then Marker(other) else s[i])
  }

  function NotIn(numbers: seq<nat>, s: Sentence): seq<nat> {
    if numbers == [] then []
    else (if Marker(numbers[0]) in s then [] else [numbers[0]]) + NotIn(numbers[1..], s)
  }

  function AsMarkers(numbers: seq<nat>): (s: Sentence)
    ensures |s| == |numbers| && forall i :: 0 <= i < |numbers| ==> s[i] == Marker(numbers[i])
  {
    seq(|numbers|, i requires 0 <= i < |numbers| => Marker(numbers[i]))
  }

  /** The number of tokens up to and with the last marker. */
  function AfterLastMarker(s: Sentence): (i: nat)
    ensures i <= |s| && (i > 0 ==> s[i - 1].Marker?)
    ensures forall j :: i <= j < |s| ==> !s[j].Marker?
  {
    if s == [] then 0 else if s[|s| - 1].Marker? then |s| else AfterLastMarker(s[..|s| - 1])
  }

  function Inserted(s: Sentence, numbers: seq<nat>): Sentence {
    s[..AfterLastMarker(s)] + AsMarkers(numbers) + s[AfterLastMarker(s)..]
  }

  function DropMarkers(n: nat, s: Sentence): Sentence {
    if |s| >= 1 && s[0] == Marker(n) then DropMarkers(n, s[1..])
    else if |s| >= 2 && s[0] == Gap && s[1] == Marker(n) then DropMarkers(n, s[2..])
    else s
  }

  /** One marker for a run of the same. */
  function MarkersOnce(s: Sentence): Sentence
    decreases |s|
  {
    if s == [] then []
    else if s[0].Marker? then
      DropsShorten(s[0].n, s[1..]);
      [s[0]] + MarkersOnce(DropMarkers(s[0].n, s[1..]))
    else [s[0]] + MarkersOnce(s[1..])
  }

  function DropSources(n: nat, s: Sentence): Sentence {
    if |s| >= 2 && s[0] == Conj && s[1] == Marker(n) then DropSources(n, s[2..])
    else if |s| >= 3 && s[0] == Conj && s[1] == Source && s[2] == Marker(n) then DropSources(n, s[3..])
    else s
  }

  /** One mention for a run like "source [1] and source [1]". */
  function SourcesOnce(s: Sentence): Sentence
    decreases |s|
  {
    if s == [] then []
    else if |s| >= 2 && s[0] == Source && s[1].Marker? then
      DropsShorten(s[1].n, s[2..]);
      [s[0], s[1]] + SourcesOnce(DropSources(s[1].n, s[2..]))
    else [s[0]] + SourcesOnce(s[1..])
  }

  lemma {:induction false} DropsShorten(n: nat, s: Sentence)
    ensures |DropMarkers(n, s)| <= |s| && |DropSources(n, s)| <= |s|
    decreases |s|
  {
    if |s| >= 1 && s[0] == Marker(n) {
      DropsShorten(n, s[1..]);
    } else if |s| >= 2 && s[0] == Gap && s[1] == Marker(n) {
      DropsShorten(n, s[2..]);
    }
    if |s| >= 2 && s[0] == Conj && s[1] == Marker(n) {
      DropsShorten(n, s[2..]);
    } else if |s| >= 3 && s[0] == Conj && s[1] == Source && s[2] == Marker(n) {
      DropsShorten(n, s[3..]);
    }
  }

  // ------------------------------------------------------------------ specification

  datatype Repair = Repair(sentence: Sentence, changes: nat)

  /** Dead citations replaced by the first source of the cover. */
  function Redirected(s: Sentence, dead: set<nat>, cover: seq<nat>): Sentence {
    if dead != {} && cover != [] then Replaced(s, dead, cover[0]) else s
  }

  function Extended(s: Sentence, added: seq<nat>): Sentence {
    if added == [] then s else Inserted(s, added)
  }

  function Rewritten(s: Sentence, dead: set<nat>, cover: seq<nat>): Repair {
    var redirected := Redirected(s, dead, cover);
    var added := NotIn(cover, redirected);
    Repair(MarkersOnce(SourcesOnce(Extended(redirected, added))), |dead| + |added|)
  }

  function Repaired(s: Sentence, have: Sources): Repair {
    var missing := Missing(s, have);
    if Cited(s, have) == {} || missing == {} then Repair(s, 0)
    else Rewritten(s, Dead(s, have), Cover(have, missing))
  }

  // ------------------------------------------------------------------ the methods

  method FindBest(have: Sources, missing: set<Figure>) returns (best: nat)
    requires have != []
    ensures best == Best(have, missing, |have|)
  {
    best := 1;
    for k := 2 to |have| + 1
      invariant best == Best(have, missing, k - 1)
    {
      if Gain(have, missing, k) > Gain(have, missing, best) {
        best := k;
      }
    }
  }

  method GreedyCover(have: Sources, wanted: set<Figure>) returns (replacements: seq<nat>)
    requires have != []
    ensures replacements == Cover(have, wanted)
  {
    replacements := [];
    var missing := wanted;
    ghost var all := Cover(have, wanted);
    while missing != {}
      invariant replacements + Cover(have, missing) == all
      decreases |missing|
    {
      var best := FindBest(have, missing);
      var found := FiguresIn(have, best);
      if found * missing == {} {
        return;
      }
      FewerMissing(missing, found);
      ghost var later := Cover(have, missing - found);
      assert replacements + ([best] + later) == replacements + [best] + later;
      replacements := replacements + [best];
      missing := missing - found;
    }
  }

  method Rewrite(sentence: Sentence, dead: set<nat>, cover: seq<nat>) returns (result: Sentence, changes: nat)
    ensures Repair(result, changes) == Rewritten(sentence, dead, cover)
  {
    result := sentence;
    if dead != {} && cover != [] {
      result := Replaced(sentence, dead, cover[0]);
    }
    var added := NotIn(cover, result);
    if added != [] {
      result := Inserted(result, added);
    }
    result := MarkersOnce(SourcesOnce(result));
    changes := |dead| + |added|;
  }

  method RepointSentence(sentence: Sentence, have: Sources) returns (result: Sentence, changes: nat)
    ensures Repair(result, changes) == Repaired(sentence, have)
  {
    if Cited(sentence, have) == {} || Stated(sentence) == {} {
      return sentence, 0;
    }
    var missing := Missing(sentence, have);
    if missing == {} {
      return sentence, 0;
    }
    var replacements := GreedyCover(have, missing);
    result, changes := Rewrite(sentence, Dead(sentence, have), replacements);
  }
}
