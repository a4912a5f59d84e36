/** Where a repaired sentence cites what, told from its tokens and the figures of the sources. */
module CitationEffects {
  import opened Citations
  import opened CitationProperties

  // ------------------------------------------------------------------ the cover is greedy

  /** The wanted figures that none of the sources has. */
  function Left(have: Sources, wanted: set<Figure>, numbers: seq<nat>): set<Figure> {
    if numbers == [] then wanted else Left(have, wanted - FiguresIn(have, numbers[0]), numbers[1..])
  }

  /** Source n has the most of the figures, and more than any before it. */
  predicate IsFirstBest(have: Sources, figures: set<Figure>, n: nat) {
    && 1 <= n <= |have| && have[n - 1] * figures != {}
    && (forall i :: 0 <= i < |have| ==> |have[i] * figures| <= |have[n - 1] * figures|)
    && (forall i :: 0 <= i < n - 1 ==> |have[i] * figures| < |have[n - 1] * figures|)
  }

  lemma BestIsFirstBest(have: Sources, missing: set<Figure>)
    requires have != [] && FiguresIn(have, Best(have, missing, |have|)) * missing != {}
    ensures IsFirstBest(have, missing, Best(have, missing, |have|))
  {
    var best := Best(have, missing, |have|);
    forall i | 0 <= i < |have|
      ensures |have[i] * missing| <= |have[best - 1] * missing|
      ensures i < best - 1 ==> |have[i] * missing| < |have[best - 1] * missing|
    {
      assert Gain(have, missing, i + 1) <= Gain(have, missing, best);
      assert i + 1 < best ==> Gain(have, missing, i + 1) < Gain(have, missing, best);
    }
  }

  lemma KnownNeedsSources(have: Sources, missing: set<Figure>)
    requires missing != {} && missing <= Known(have)
    ensures have != []
  {
    var f :| f in missing;
    var n := KnownHasASource(have, f);
  }

  /** The cover of some figures: the best source, then the cover of those it leaves. */
  lemma {:induction false} CoverStep(have: Sources, missing: set<Figure>) returns (best: nat)
    requires missing != {} && missing <= Known(have)
    ensures IsFirstBest(have, missing, best)
    ensures |missing - FiguresIn(have, best)| < |missing|
    ensures Cover(have, missing) == [best] + Cover(have, missing - FiguresIn(have, best))
  {
    KnownNeedsSources(have, missing);
    BestGains(have, missing);
    best := Best(have, missing, |have|);
    FewerMissing(missing, FiguresIn(have, best));
    BestIsFirstBest(have, missing);
  }

  lemma LeftOfCons(have: Sources, wanted: set<Figure>, n: nat, later: seq<nat>)
    ensures Left(have, wanted, [n] + later) == Left(have, wanted - FiguresIn(have, n), later)
  {
    assert ([n] + later)[1..] == later;
  }

  /** The cover leaves no figure that some source has. */
  lemma {:induction false} CoverLeavesNone(have: Sources, missing: set<Figure>)
    requires missing <= Known(have)
    ensures Left(have, missing, Cover(have, missing)) == {}
    decreases |missing|
  {
    if missing != {} {
      var best := CoverStep(have, missing);
      CoverLeavesNone(have, missing - FiguresIn(have, best));
      LeftOfCons(have, missing, best, Cover(have, missing - FiguresIn(have, best)));
    }
  }

  /** Each source of the cover has the most of the figures that those before it leave, the earliest
      of several. */
  lemma {:induction false} CoverIsGreedy(have: Sources, missing: set<Figure>, i: nat)
    requires missing <= Known(have) && i < |Cover(have, missing)|
    ensures IsFirstBest(have, Left(have, missing, Cover(have, missing)[..i]), Cover(have, missing)[i])
    decreases i
  {
    var best := CoverStep(have, missing);
    if i > 0 {
      CoverIsGreedy(have, missing - FiguresIn(have, best), i - 1);
      PlaceInCover(have, missing, best, Cover(have, missing - FiguresIn(have, best)), i);
    }
  }

  lemma PlaceInCover(have: Sources, missing: set<Figure>, best: nat, later: seq<nat>, i: nat)
    requires 0 < i <= |later|
    ensures ([best] + later)[i] == later[i - 1]
    ensures Left(have, missing, ([best] + later)[..i]) == Left(have, missing - FiguresIn(have, best), later[..i - 1])
  {
    assert ([best] + later)[..i] == [best] + later[..i - 1];
    LeftOfCons(have, missing, best, later[..i - 1]);
  }

  /** A cover of figures that a source does not have does not use it. */
  lemma UnusedSource(have: Sources, missing: set<Figure>, n: nat)
    requires missing <= Known(have) && FiguresIn(have, n) * missing == {}
    ensures n !in Cover(have, missing)
  {
    CoverCovers(have, missing);
  }

  lemma {:induction false} CoverHasNoRepeats(have: Sources, missing: set<Figure>)
    requires missing <= Known(have)
    ensures forall i, j :: 0 <= i < j < |Cover(have, missing)| ==> Cover(have, missing)[i] != Cover(have, missing)[j]
    decreases |missing|
  {
    if missing != {} {
      var best := CoverStep(have, missing);
      CoverHasNoRepeats(have, missing - FiguresIn(have, best));
      UnusedSource(have, missing - FiguresIn(have, best), best);
    }
  }

  // ------------------------------------------------------------------ which sources are added

  lemma {:induction false} AllNew(numbers: seq<nat>, s: Sentence)
    requires forall k :: k in numbers ==> Marker(k) !in s
    ensures NotIn(numbers, s) == numbers
  {
    if numbers != [] {
      AllNew(numbers[1..], s);
      assert numbers == [numbers[0]] + numbers[1..];
    }
  }

  /** The cover less the source that replaced dead ones. */
  function Further(dead: set<nat>, cover: seq<nat>): seq<nat> {
    if dead == {} || cover == [] then cover else cover[1..]
  }

  lemma {:induction false} AddedAreFurther(s: Sentence, have: Sources)
    requires NeedsRepair(s, have)
    ensures var cover, dead := Cover(have, Missing(s, have)), Dead(s, have);
      NotIn(cover, Redirected(s, dead, cover)) == Further(dead, cover)
  {
    var cover, dead := Cover(have, Missing(s, have)), Dead(s, have);
    var redirected := Redirected(s, dead, cover);
    RepairedCites(s, have, 0);
    CoverHasNoRepeats(have, Missing(s, have));
    forall k | k in cover ensures Marker(k) in redirected <==> dead != {} && k == cover[0] {
      CoverIsNew(s, have, k);
      CoverCovers(have, Missing(s, have));
      MarkersHas(s, k);
      forall n | n in dead ensures Marker(n) in s {
        MarkersHas(s, n);
      }
      RedirectedHas(s, dead, cover, k);
    }
    AllNew(Further(dead, cover), redirected);
  }

  // ------------------------------------------------------------------ how many changes

  function SetOf(numbers: seq<nat>): set<nat> {
    set k | k in numbers
  }

  lemma SetOfMore(numbers: seq<nat>, k: nat)
    requires k !in numbers
    ensures |SetOf(numbers + [k])| == |SetOf(numbers)| + 1
  {
    assert SetOf(numbers + [k]) == SetOf(numbers) + {k};
  }

  lemma {:induction false} AsMany(numbers: seq<nat>)
    requires forall i, j :: 0 <= i < j < |numbers| ==> numbers[i] != numbers[j]
    ensures |SetOf(numbers)| == |numbers|
  {
    if numbers == [] {
      assert SetOf(numbers) == {};
    } else {
      var n := |numbers| - 1;
      AsMany(numbers[..n]);
      SetOfMore(numbers[..n], numbers[n]);
      assert numbers == numbers[..n] + [numbers[n]];
    }
  }

  /** The retrieved sources cited before and not after, and the other way round. */
  function Gone(s: Sentence, r: Sentence, have: Sources): set<nat> {
    Cited(s, have) - Cited(r, have)
  }

  /** The count of changes is the number of sources no longer cited and newly cited, where the first
      replacement counts once. */
  lemma {:induction false} ChangesAreTheDifference(s: Sentence, have: Sources)
    ensures var r, changes := Repaired(s, have).sentence, Repaired(s, have).changes;
      changes == |Gone(s, r, have)| + |Gone(r, s, have)| - (if Gone(s, r, have) == {} then 0 else 1)
  {
    if NeedsRepair(s, have) {
      var r := Repaired(s, have).sentence;
      var cover, dead := Cover(have, Missing(s, have)), Dead(s, have);
      AddedAreFurther(s, have);
      CoverHasNoRepeats(have, Missing(s, have));
      AsMany(cover);
      RepairedCites(s, have, 0);
      forall k ensures k in Gone(s, r, have) <==> k in dead {
        RepairedCites(s, have, k);
        if k in cover {
          CoverIsNew(s, have, k);
        }
      }
      forall k ensures k in Gone(r, s, have) <==> k in cover {
        RepairedCites(s, have, k);
        if k in cover {
          CoverIsNew(s, have, k);
        }
      }
      assert Gone(s, r, have) == dead && Gone(r, s, have) == SetOf(cover);
    }
  }

  // ------------------------------------------------------------------ where the markers are

  /** A marker, and how many stretches of words come before it. */
  datatype Mark = Mark(at: nat, n: nat)

  function Marks(s: Sentence, at: nat): seq<Mark> {
    if s == [] then []
    else if s[0].Marker? then [Mark(at, s[0].n)] + Marks(s[1..], at)
    else Marks(s[1..], if s[0].Words? then at + 1 else at)
  }

  lemma {:induction false} MarksOfUnion(a: Sentence, b: Sentence, at: nat)
    ensures Marks(a + b, at) == Marks(a, at) + Marks(b, at + |WordsOf(a)|)
  {
    if a == [] {
      assert a + b == b;
    } else {
      assert (a + b)[0] == a[0] && (a + b)[1..] == a[1..] + b;
      MarksOfUnion(a[1..], b, if a[0].Words? then at + 1 else at);
    }
  }

  lemma {:induction false} NoMarks(s: Sentence, at: nat)
    requires forall i :: 0 <= i < |s| ==> !s[i].Marker?
    ensures Marks(s, at) == []
  {
    if s != [] {
      NoMarks(s[1..], if s[0].Words? then at + 1 else at);
    }
  }

  /** The marks with the dead redirected. */
  function Moved(marks: seq<Mark>, dead: set<nat>, other: nat): (moved: seq<Mark>)
    ensures |moved| == |marks|
    ensures forall i :: 0 <= i < |marks| ==>
      moved[i] == if marks[i].n in dead then Mark(marks[i].at, other) else marks[i]
  {
    seq(|marks|, i requires 0 <= i < |marks| => if marks[i].n in dead then Mark(marks[i].at, other) else marks[i])
  }

  lemma {:induction false} MarksOfReplaced(s: Sentence, dead: set<nat>, other: nat, at: nat)
    ensures Marks(Replaced(s, dead, other), at) == Moved(Marks(s, at), dead, other)
  {
    if s != [] {
      assert Replaced(s, dead, other)[1..] == Replaced(s[1..], dead, other);
      MarksOfReplaced(s[1..], dead, other, if s[0].Words? then at + 1 else at);
    }
  }

  function MarksAt(numbers: seq<nat>, at: nat): (marks: seq<Mark>)
    ensures |marks| == |numbers| && forall i :: 0 <= i < |numbers| ==> marks[i] == Mark(at, numbers[i])
  {
    seq(|numbers|, i requires 0 <= i < |numbers| => Mark(at, numbers[i]))
  }

  lemma {:induction false} MarksOfMarkers(numbers: seq<nat>, at: nat)
    ensures Marks(AsMarkers(numbers), at) == MarksAt(numbers, at)
  {
    if numbers != [] {
      assert AsMarkers(numbers)[1..] == AsMarkers(numbers[1..]);
      MarksOfMarkers(numbers[1..], at);
    }
  }

  lemma LastMark(s: Sentence, at: nat)
    requires s != [] && s[|s| - 1].Marker?
    ensures Marks(s, at) != []
    ensures Marks(s, at)[|Marks(s, at)| - 1].at == at + |WordsOf(s)|
  {
    var n := |s| - 1;
    assert s == s[..n] + [s[n]];
    MarksOfUnion(s[..n], [s[n]], at);
    WordsOfUnion(s[..n], [s[n]]);
  }

  lemma {:induction false} MarksOfThree(a: Sentence, numbers: seq<nat>, b: Sentence)
    requires forall i :: 0 <= i < |b| ==> !b[i].Marker?
    ensures Marks(a + AsMarkers(numbers) + b, 0) == Marks(a, 0) + MarksAt(numbers, |WordsOf(a)|)
  {
    MarksOfUnion(a + AsMarkers(numbers), b, 0);
    MarksOfUnion(a, AsMarkers(numbers), 0);
    MarksOfMarkers(numbers, |WordsOf(a)|);
    NoMarks(b, |WordsOf(a + AsMarkers(numbers))|);
  }

  lemma MarksOfTwo(a: Sentence, b: Sentence)
    requires forall i :: 0 <= i < |b| ==> !b[i].Marker?
    ensures Marks(a + b, 0) == Marks(a, 0)
  {
    MarksOfUnion(a, b, 0);
    NoMarks(b, |WordsOf(a)|);
  }

  /** New markers go right after the last one. */
  lemma MarksOfInserted(s: Sentence, numbers: seq<nat>)
    requires exists n :: Marker(n) in s
    ensures Marks(s, 0) != []
    ensures Marks(Inserted(s, numbers), 0) == Marks(s, 0) + MarksAt(numbers, Marks(s, 0)[|Marks(s, 0)| - 1].at)
  {
    var i := AfterLastMarker(s);
    assert s == s[..i] + s[i..];
    MarksOfTwo(s[..i], s[i..]);
    LastMark(s[..i], 0);
    MarksOfThree(s[..i], numbers, s[i..]);
  }

  // ------------------------------------------------------------------ repeated marks

  /** One of each run of equal marks. */
  function Squeezed(marks: seq<Mark>): (r: seq<Mark>)
    ensures marks == [] <==> r == []
    ensures marks != [] ==> r[0] == marks[0]
  {
    if |marks| <= 1 then marks
    else if marks[0] == marks[1] then Squeezed(marks[1..])
    else [marks[0]] + Squeezed(marks[1..])
  }

  /** Lists that squeeze alike do so after any mark. */
  lemma SqueezedOnMore(m: Mark, a: seq<Mark>, b: seq<Mark>)
    requires Squeezed(a) == Squeezed(b)
    ensures Squeezed([m] + a) == Squeezed([m] + b)
  {
    assert ([m] + a)[1..] == a && ([m] + b)[1..] == b;
  }

  lemma SqueezedTwice(m: Mark, rest: seq<Mark>)
    ensures Squeezed([m, m] + rest) == Squeezed([m] + rest)
  {
    assert ([m, m] + rest)[1..] == [m] + rest;
  }

  lemma {:induction false} MarksOfDropped(n: nat, s: Sentence, at: nat)
    ensures Squeezed([Mark(at, n)] + Marks(DropMarkers(n, s), at)) == Squeezed([Mark(at, n)] + Marks(s, at))
    decreases |s|
  {
    if |s| >= 1 && s[0] == Marker(n) {
      MarksOfDropped(n, s[1..], at);
      MarkAgain(n, s, s[1..], at);
    } else if |s| >= 2 && s[0] == Gap && s[1] == Marker(n) {
      MarksOfDropped(n, s[2..], at);
      assert s[1..][1..] == s[2..];
      MarkAgain(n, s, s[2..], at);
    }
  }

  lemma MarkAgain(n: nat, s: Sentence, rest: Sentence, at: nat)
    requires Marks(s, at) == [Mark(at, n)] + Marks(rest, at)
    ensures Squeezed([Mark(at, n)] + Marks(s, at)) == Squeezed([Mark(at, n)] + Marks(rest, at))
  {
    assert [Mark(at, n)] + Marks(s, at) == [Mark(at, n), Mark(at, n)] + Marks(rest, at);
    SqueezedTwice(Mark(at, n), Marks(rest, at));
  }

  lemma {:induction false} MarksOfDroppedSources(n: nat, s: Sentence, at: nat)
    ensures Squeezed([Mark(at, n)] + Marks(DropSources(n, s), at)) == Squeezed([Mark(at, n)] + Marks(s, at))
    decreases |s|
  {
    if |s| >= 2 && s[0] == Conj && s[1] == Marker(n) {
      MarksOfDroppedSources(n, s[2..], at);
      assert s[1..][1..] == s[2..];
      MarkAgain(n, s, s[2..], at);
    } else if |s| >= 3 && s[0] == Conj && s[1] == Source && s[2] == Marker(n) {
      MarksOfDroppedSources(n, s[3..], at);
      assert s[1..][1..] == s[2..] && s[2..][1..] == s[3..];
      assert Marks(s, at) == Marks(s[1..], at) == Marks(s[2..], at);
      MarkAgain(n, s, s[3..], at);
    }
  }

  lemma {:induction false} MarksOfMarkersOnce(s: Sentence, at: nat)
    ensures Squeezed(Marks(MarkersOnce(s), at)) == Squeezed(Marks(s, at))
    decreases |s|
  {
    if s != [] {
      if s[0].Marker? {
        var n := s[0].n;
        DropsShorten(n, s[1..]);
        var rest := DropMarkers(n, s[1..]);
        MarksOfMarkersOnce(rest, at);
        SqueezedOnMore(Mark(at, n), Marks(MarkersOnce(rest), at), Marks(rest, at));
        MarksOfDropped(n, s[1..], at);
        assert ([s[0]] + MarkersOnce(rest))[1..] == MarkersOnce(rest);
      } else {
        MarksOfMarkersOnce(s[1..], if s[0].Words? then at + 1 else at);
        assert ([s[0]] + MarkersOnce(s[1..]))[1..] == MarkersOnce(s[1..]);
      }
    }
  }

  lemma MarksOfMention(n: nat, rest: Sentence, at: nat)
    ensures Marks([Source, Marker(n)] + rest, at) == [Mark(at, n)] + Marks(rest, at)
  {
    assert ([Source, Marker(n)] + rest)[1..] == [Marker(n)] + rest && ([Marker(n)] + rest)[1..] == rest;
  }

  lemma {:induction false} MarksOfSourcesOnce(s: Sentence, at: nat)
    ensures Squeezed(Marks(SourcesOnce(s), at)) == Squeezed(Marks(s, at))
    decreases |s|
  {
    if |s| >= 2 && s[0] == Source && s[1].Marker? {
      var n := s[1].n;
      DropsShorten(n, s[2..]);
      var rest := DropSources(n, s[2..]);
      MarksOfSourcesOnce(rest, at);
      SqueezedOnMore(Mark(at, n), Marks(SourcesOnce(rest), at), Marks(rest, at));
      MarksOfDroppedSources(n, s[2..], at);
      MarksOfMention(n, SourcesOnce(rest), at);
      MarksOfMention(n, s[2..], at);
      assert [Source, Marker(n)] + s[2..] == s;
    } else if s != [] {
      MarksOfSourcesOnce(s[1..], if s[0].Words? then at + 1 else at);
      assert ([s[0]] + SourcesOnce(s[1..]))[1..] == SourcesOnce(s[1..]);
      if s[0].Marker? {
        SqueezedOnMore(Mark(at, s[0].n), Marks(SourcesOnce(s[1..]), at), Marks(s[1..], at));
      }
    }
  }

  lemma RedirectedMarks(s: Sentence, dead: set<nat>, cover: seq<nat>)
    requires cover != []
    ensures Marks(Redirected(s, dead, cover), 0) == Moved(Marks(s, 0), dead, cover[0])
  {
    MarksOfReplaced(s, dead, cover[0], 0);
    if dead == {} {
      assert Moved(Marks(s, 0), dead, cover[0]) == Marks(s, 0);
    }
  }

  lemma ExtendedMarks(s: Sentence, added: seq<nat>)
    requires exists n :: Marker(n) in s
    ensures Marks(s, 0) != []
    ensures Marks(Extended(s, added), 0) == Marks(s, 0) + MarksAt(added, Marks(s, 0)[|Marks(s, 0)| - 1].at)
  {
    MarksOfInserted(s, added);
    if added == [] {
      assert Marks(s, 0) + MarksAt(added, Marks(s, 0)[|Marks(s, 0)| - 1].at) == Marks(s, 0);
    }
  }

  lemma {:induction false} RewrittenMarks(s: Sentence, dead: set<nat>, cover: seq<nat>, added: seq<nat>)
    requires cover != [] && added == NotIn(cover, Redirected(s, dead, cover))
    requires exists n :: Marker(n) in Redirected(s, dead, cover)
    ensures Marks(s, 0) != []
    ensures Squeezed(Marks(Rewritten(s, dead, cover).sentence, 0)) == Squeezed(
      Moved(Marks(s, 0), dead, cover[0]) + MarksAt(added, Marks(s, 0)[|Marks(s, 0)| - 1].at))
  {
    var redirected := Redirected(s, dead, cover);
    RedirectedMarks(s, dead, cover);
    ExtendedMarks(redirected, added);
    MarksOfSourcesOnce(Extended(redirected, added), 0);
    MarksOfMarkersOnce(SourcesOnce(Extended(redirected, added)), 0);
  }

  /** In a repaired sentence every citation stays where it was among the words, those of dead sources
      now to the first of the cover, and the rest of the cover follows the last; only the repeats of
      a marker at one place may be fewer. */
  lemma {:induction false} CitationsStayInPlace(s: Sentence, have: Sources)
    requires NeedsRepair(s, have)
    ensures var cover, dead := Cover(have, Missing(s, have)), Dead(s, have);
      && cover != [] && Marks(s, 0) != []
      && Squeezed(Marks(Repaired(s, have).sentence, 0)) == Squeezed(
           Moved(Marks(s, 0), dead, cover[0]) + MarksAt(Further(dead, cover), Marks(s, 0)[|Marks(s, 0)| - 1].at))
  {
    var cover, dead := Cover(have, Missing(s, have)), Dead(s, have);
    RepairedCites(s, have, 0);
    AddedAreFurther(s, have);
    var n :| n in Cited(s, have);
    MarkersHas(s, n);
    StillMarked(s, dead, cover, n);
    RewrittenMarks(s, dead, cover, Further(dead, cover));
  }

  lemma StillMarked(s: Sentence, dead: set<nat>, cover: seq<nat>, n: nat)
    requires Marker(n) in s
    ensures exists k :: Marker(k) in Redirected(s, dead, cover)
  {
    var i :| 0 <= i < |s| && s[i] == Marker(n);
    var t := Redirected(s, dead, cover)[i];
    assert Marker(t.n) in Redirected(s, dead, cover);
  }

  // ------------------------------------------------------------------ nothing else is dropped

  /** A sentence in which no marker repeats is left as it is. */
  lemma {:induction false} OnceLeavesAlone(s: Sentence)
    ensures MarkersOnce(s) == s <==> NoRepeats(s)
    decreases |s|
  {
    OnceHasNoRepeats(s);
    if NoRepeats(s) && s != [] {
      NoRepeatsOfRest(s);
      OnceLeavesAlone(s[1..]);
    }
  }

  lemma NoRepeatsOfRest(s: Sentence)
    requires NoRepeats(s) && s != []
    ensures NoRepeats(s[1..])
    ensures s[0].Marker? ==> DropMarkers(s[0].n, s[1..]) == s[1..]
  {
    assert s[0].Marker? ==> !Repeats(s[0].n, s[0 + 1..]);
    forall i | 0 <= i < |s[1..]| && s[1..][i].Marker? ensures !Repeats(s[1..][i].n, s[1..][i + 1..]) {
      assert s[1..][i + 1..] == s[i + 1 + 1..] && s[1..][i] == s[i + 1];
    }
  }

  /** The tokens go on with another mention of source n. */
  predicate MentionsAgain(n: nat, rest: Sentence) {
    || (|rest| >= 2 && rest[0] == Conj && rest[1] == Marker(n))
    || (|rest| >= 3 && rest[0] == Conj && rest[1] == Source && rest[2] == Marker(n))
  }

  predicate NoMentionAgain(s: Sentence) {
    forall i :: 0 <= i < |s| - 1 && s[i] == Source && s[i + 1].Marker? ==> !MentionsAgain(s[i + 1].n, s[i + 2..])
  }

  lemma {:induction false} DropsAllMentions(n: nat, s: Sentence)
    ensures !MentionsAgain(n, DropSources(n, s))
    decreases |s|
  {
    if |s| >= 2 && s[0] == Conj && s[1] == Marker(n) {
      DropsAllMentions(n, s[2..]);
    } else if |s| >= 3 && s[0] == Conj && s[1] == Source && s[2] == Marker(n) {
      DropsAllMentions(n, s[3..]);
    }
  }

  lemma FirstOfSourcesOnce(s: Sentence)
    ensures s == [] <==> SourcesOnce(s) == []
    ensures s != [] ==> SourcesOnce(s)[0] == s[0]
  {
    if |s| >= 2 && s[0] == Source && s[1].Marker? {
      DropsShorten(s[1].n, s[2..]);
    }
  }

  lemma MentionsStartAlike(n: nat, s: Sentence)
    requires !MentionsAgain(n, s)
    ensures !MentionsAgain(n, SourcesOnce(s))
  {
    FirstOfSourcesOnce(s);
    if |s| >= 2 && s[0] == Conj {
      SecondOfSourcesOnce(s[1..]);
      assert SourcesOnce(s) == [Conj] + SourcesOnce(s[1..]);
      assert s[1] == s[1..][0];
    }
  }

  lemma SecondOfSourcesOnce(s: Sentence)
    requires s != []
    ensures SourcesOnce(s) != [] && SourcesOnce(s)[0] == s[0]
    ensures |SourcesOnce(s)| >= 2 && SourcesOnce(s)[0] == Source && SourcesOnce(s)[1].Marker? ==>
      |s| >= 2 && s[1] == SourcesOnce(s)[1]
  {
    if |s| >= 2 && s[0] == Source && s[1].Marker? {
      DropsShorten(s[1].n, s[2..]);
    } else {
      FirstOfSourcesOnce(s[1..]);
      assert SourcesOnce(s) == [s[0]] + SourcesOnce(s[1..]);
    }
  }

  lemma NoMentionOnMore(t: Token, s: Sentence)
    requires NoMentionAgain(s) && (t == Source && s != [] && s[0].Marker? ==> !MentionsAgain(s[0].n, s[1..]))
    ensures NoMentionAgain([t] + s)
  {
    var longer := [t] + s;
    forall i | 0 <= i < |longer| - 1 && longer[i] == Source && longer[i + 1].Marker?
      ensures !MentionsAgain(longer[i + 1].n, longer[i + 2..])
    {
      if i == 0 {
        assert longer[2..] == s[1..];
      } else {
        assert longer[i + 2..] == s[i - 1 + 2..] && s[i - 1] == Source && s[i - 1 + 1].Marker?;
      }
    }
  }

  /** A repaired mention is followed by no other of the same source. */
  lemma {:induction false} SourcesAreMentionedOnce(s: Sentence)
    ensures NoMentionAgain(SourcesOnce(s))
    decreases |s|
  {
    if |s| >= 2 && s[0] == Source && s[1].Marker? {
      var n := s[1].n;
      DropsShorten(n, s[2..]);
      var rest := DropSources(n, s[2..]);
      SourcesAreMentionedOnce(rest);
      DropsAllMentions(n, s[2..]);
      MentionsStartAlike(n, rest);
      var later := SourcesOnce(rest);
      NoMentionOnMore(Marker(n), later);
      assert ([Marker(n)] + later)[1..] == later;
      NoMentionOnMore(Source, [Marker(n)] + later);
      assert SourcesOnce(s) == [Source] + ([Marker(n)] + later);
    } else if s != [] {
      SourcesAreMentionedOnce(s[1..]);
      FirstOfSourcesOnce(s[1..]);
      NoMentionOnMore(s[0], SourcesOnce(s[1..]));
    }
  }

  /** A sentence that mentions no source again is left as it is. */
  lemma {:induction false} SourcesOnceLeavesAlone(s: Sentence)
    ensures SourcesOnce(s) == s <==> NoMentionAgain(s)
    decreases |s|
  {
    SourcesAreMentionedOnce(s);
    if NoMentionAgain(s) && s != [] {
      if |s| >= 2 && s[0] == Source && s[1].Marker? {
        assert !MentionsAgain(s[0 + 1].n, s[0 + 2..]);
        NoMentionOfRest(s);
        NoMentionOfRest(s[1..]);
        assert s[1..][1..] == s[2..];
        SourcesOnceLeavesAlone(s[2..]);
        assert s == [s[0], s[1]] + s[2..];
      } else {
        NoMentionOfRest(s);
        SourcesOnceLeavesAlone(s[1..]);
      }
    }
  }

  lemma NoMentionOfRest(s: Sentence)
    requires NoMentionAgain(s) && s != []
    ensures NoMentionAgain(s[1..])
  {
    var rest := s[1..];
    forall i | 0 <= i < |rest| - 1 && rest[i] == Source && rest[i + 1].Marker?
      ensures !MentionsAgain(rest[i + 1].n, rest[i + 2..])
    {
      assert rest[i + 2..] == s[i + 1 + 2..] && rest[i] == s[i + 1] && rest[i + 1] == s[i + 1 + 1];
    }
  }

  // ------------------------------------------------------------------ the promise in full

  /** A stated figure that some source has, in a sentence that cites a retrieved source: afterwards
      the sentence still states it and cites a source that has it. */
  lemma FiguresStayCited(s: Sentence, have: Sources, cited: nat, i: nat, f: Figure, h: nat)
    requires Marker(cited) in s && 1 <= cited <= |have|
    requires i < |s| && s[i].Words? && f in s[i].figures
    requires h < |have| && f in have[h]
    ensures var r := Repaired(s, have).sentence;
      && (exists w :: w in r && w.Words? && f in w.figures)
      && (exists n: nat :: Marker(n) in r && 1 <= n <= |have| && f in have[n - 1])
  {
    var r := Repaired(s, have).sentence;
    MarkersHas(s, cited);
    assert cited in Cited(s, have);
    assert s[i] in s && f in Stated(s) && have[h] in have && f in Known(have);
    EveryKnownFigureIsCovered(s, have, f);
    RepairKeepsTheWords(s, have);
    WordsOfHas(s, s[i]);
    WordsOfHas(r, s[i]);
    var n :| n in Cited(r, have) && f in FiguresIn(have, n);
    MarkersHas(r, n);
  }
}
