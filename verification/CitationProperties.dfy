/** What citation repair guarantees, and the citations a finished answer lists. */
module CitationProperties {
  import opened Citations

  // ------------------------------------------------------------------ the cover

  lemma KnownHasASource(have: Sources, f: Figure) returns (n: nat)
    requires f in Known(have)
    ensures Provided(have, n) && f in FiguresIn(have, n)
  {
    var h :| h in have && f in h;
    var i :| 0 <= i < |have| && have[i] == h;
    n := i + 1;
  }

  lemma BestGains(have: Sources, missing: set<Figure>)
    requires have != [] && missing != {} && missing <= Known(have)
    ensures FiguresIn(have, Best(have, missing, |have|)) * missing != {}
  {
    var f :| f in missing;
    var n := KnownHasASource(have, f);
    assert f in FiguresIn(have, n) * missing;
    assert Gain(have, missing, n) >= 1;
    assert Gain(have, missing, Best(have, missing, |have|)) >= 1;
  }

  predicate Covers(have: Sources, numbers: seq<nat>, f: Figure) {
    exists n :: n in numbers && f in FiguresIn(have, n)
  }

  /** Every chosen source has one of the wanted figures. */
  predicate Useful(have: Sources, numbers: seq<nat>, wanted: set<Figure>) {
    forall n :: n in numbers ==> Provided(have, n) && FiguresIn(have, n) * wanted != {}
  }

  lemma UsefulOnMore(have: Sources, best: nat, later: seq<nat>, fewer: set<Figure>, wanted: set<Figure>)
    requires Useful(have, later, fewer) && fewer <= wanted
    requires Provided(have, best) && FiguresIn(have, best) * wanted != {}
    ensures Useful(have, [best] + later, wanted)
  {
    forall n | n in later ensures FiguresIn(have, n) * wanted != {} {
      assert FiguresIn(have, n) * fewer <= FiguresIn(have, n) * wanted;
    }
  }

  lemma CoversMore(have: Sources, best: nat, later: seq<nat>, f: Figure)
    requires f in FiguresIn(have, best) || Covers(have, later, f)
    ensures Covers(have, [best] + later, f)
  {
    var all := [best] + later;
    if f in FiguresIn(have, best) {
      assert best in all;
    } else {
      var n :| n in later && f in FiguresIn(have, n);
      assert n in all;
    }
  }

  /** The greedy cover ends with every figure covered, by sources that each have one of them. */
  lemma {:induction false} CoverCovers(have: Sources, missing: set<Figure>)
    requires missing <= Known(have)
    ensures Useful(have, Cover(have, missing), missing)
    ensures forall f :: f in missing ==> Covers(have, Cover(have, missing), f)
    decreases |missing|
  {
    if missing != {} {
      var f :| f in missing;
      var n := KnownHasASource(have, f);
      BestGains(have, missing);
      var best := Best(have, missing, |have|);
      var found := FiguresIn(have, best);
      FewerMissing(missing, found);
      CoverCovers(have, missing - found);
      var later := Cover(have, missing - found);
      UsefulOnMore(have, best, later, missing - found, missing);
      forall g | g in missing ensures Covers(have, [best] + later, g) {
        CoversMore(have, best, later, g);
      }
    }
  }

  // ------------------------------------------------------------------ what rewriting keeps

  /** The words of a sentence in order. */
  function WordsOf(s: Sentence): Sentence {
    if s == [] then [] else (if s[0].Words? then [s[0]] else []) + WordsOf(s[1..])
  }

  lemma {:induction false} WordsOfUnion(a: Sentence, b: Sentence)
    ensures WordsOf(a + b) == WordsOf(a) + WordsOf(b)
  {
    if a == [] {
      assert a + b == b;
    } else {
      var first := if a[0].Words? then [a[0]] else [];
      WordsOfUnion(a[1..], b);
      assert (a + b)[0] == a[0] && (a + b)[1..] == a[1..] + b;
      assert WordsOf(a + b) == first + (WordsOf(a[1..]) + WordsOf(b));
    }
  }

  lemma {:induction false} WordsOfHas(s: Sentence, t: Token)
    ensures t in WordsOf(s) <==> t in s && t.Words?
  {
    if s != [] {
      WordsOfHas(s[1..], t);
      assert s == [s[0]] + s[1..];
    }
  }

  /** The same words state the same figures. */
  lemma SameWordsSameFigures(a: Sentence, b: Sentence)
    requires WordsOf(a) == WordsOf(b)
    ensures Stated(a) == Stated(b)
  {
    forall t: Token ensures t.Words? ==> (t in a <==> t in b) {
      WordsOfHas(a, t);
      WordsOfHas(b, t);
    }
  }

  lemma {:induction false} WordsOfReplaced(s: Sentence, dead: set<nat>, other: nat)
    ensures WordsOf(Replaced(s, dead, other)) == WordsOf(s)
  {
    if s != [] {
      assert Replaced(s, dead, other)[1..] == Replaced(s[1..], dead, other);
      WordsOfReplaced(s[1..], dead, other);
    }
  }

  lemma {:induction false} WordsOfMarkers(numbers: seq<nat>)
    ensures WordsOf(AsMarkers(numbers)) == []
  {
    if numbers != [] {
      assert AsMarkers(numbers)[1..] == AsMarkers(numbers[1..]);
      WordsOfMarkers(numbers[1..]);
    }
  }

  lemma WordsOfInserted(s: Sentence, numbers: seq<nat>)
    ensures WordsOf(Inserted(s, numbers)) == WordsOf(s)
  {
    var a, b := s[..AfterLastMarker(s)], s[AfterLastMarker(s)..];
    WordsOfUnion(a + AsMarkers(numbers), b);
    WordsOfUnion(a, AsMarkers(numbers));
    WordsOfMarkers(numbers);
    WordsOfUnion(a, b);
    assert a + b == s;
    assert WordsOf(a) + [] == WordsOf(a);
  }

  lemma {:induction false} WordsOfDropped(n: nat, s: Sentence)
    ensures WordsOf(DropMarkers(n, s)) == WordsOf(s)
    decreases |s|
  {
    if |s| >= 1 && s[0] == Marker(n) {
      WordsOfDropped(n, s[1..]);
    } else if |s| >= 2 && s[0] == Gap && s[1] == Marker(n) {
      WordsOfDropped(n, s[2..]);
      assert s[1..][1..] == s[2..];
    }
  }

  lemma {:induction false} WordsOfDroppedSources(n: nat, s: Sentence)
    ensures WordsOf(DropSources(n, s)) == WordsOf(s)
    decreases |s|
  {
    if |s| >= 2 && s[0] == Conj && s[1] == Marker(n) {
      WordsOfDroppedSources(n, s[2..]);
      assert s[1..][1..] == s[2..];
    } else if |s| >= 3 && s[0] == Conj && s[1] == Source && s[2] == Marker(n) {
      WordsOfDroppedSources(n, s[3..]);
      assert s[1..][1..] == s[2..] && s[2..][1..] == s[3..];
      assert WordsOf(s) == WordsOf(s[1..]) == WordsOf(s[2..]) == WordsOf(s[3..]);
    }
  }

  lemma {:induction false} WordsOfMarkersOnce(s: Sentence)
    ensures WordsOf(MarkersOnce(s)) == WordsOf(s)
    decreases |s|
  {
    if s != [] {
      var rest := if s[0].Marker? then DropMarkers(s[0].n, s[1..]) else s[1..];
      if s[0].Marker? {
        DropsShorten(s[0].n, s[1..]);
        WordsOfDropped(s[0].n, s[1..]);
      }
      WordsOfMarkersOnce(rest);
      assert ([s[0]] + MarkersOnce(rest))[1..] == MarkersOnce(rest);
    }
  }

  lemma {:induction false} WordsOfSourcesOnce(s: Sentence)
    ensures WordsOf(SourcesOnce(s)) == WordsOf(s)
    decreases |s|
  {
    if |s| >= 2 && s[0] == Source && s[1].Marker? {
      DropsShorten(s[1].n, s[2..]);
      var rest := DropSources(s[1].n, s[2..]);
      WordsOfDroppedSources(s[1].n, s[2..]);
      WordsOfSourcesOnce(rest);
      WordsOfUnion([s[0], s[1]], SourcesOnce(rest));
      WordsOfUnion([s[0], s[1]], s[2..]);
      assert [s[0], s[1]] + s[2..] == s;
    } else if s != [] {
      WordsOfSourcesOnce(s[1..]);
      assert ([s[0]] + SourcesOnce(s[1..]))[1..] == SourcesOnce(s[1..]);
    }
  }

  /** Repair leaves every word where it was. */
  lemma RepairKeepsTheWords(s: Sentence, have: Sources)
    ensures WordsOf(Repaired(s, have).sentence) == WordsOf(s)
    ensures Stated(Repaired(s, have).sentence) == Stated(s)
  {
    var missing := Missing(s, have);
    if Cited(s, have) != {} && missing != {} {
      var cover, dead := Cover(have, missing), Dead(s, have);
      if cover != [] {
        WordsOfReplaced(s, dead, cover[0]);
      }
      var redirected := Redirected(s, dead, cover);
      var added := NotIn(cover, redirected);
      WordsOfInserted(redirected, added);
      WordsOfSourcesOnce(Extended(redirected, added));
      WordsOfMarkersOnce(SourcesOnce(Extended(redirected, added)));
    }
    SameWordsSameFigures(Repaired(s, have).sentence, s);
  }

  // ------------------------------------------------------------------ which markers remain

  lemma {:induction false} DroppedMarkers(n: nat, s: Sentence, k: nat)
    ensures Marker(k) in DropMarkers(n, s) ==> Marker(k) in s
    ensures Marker(k) in s && k != n ==> Marker(k) in DropMarkers(n, s)
    decreases |s|
  {
    if |s| >= 1 && s[0] == Marker(n) {
      DroppedMarkers(n, s[1..], k);
      assert s == [s[0]] + s[1..];
    } else if |s| >= 2 && s[0] == Gap && s[1] == Marker(n) {
      DroppedMarkers(n, s[2..], k);
      assert s == [s[0], s[1]] + s[2..];
    }
  }

  lemma {:induction false} DroppedSources(n: nat, s: Sentence, k: nat)
    ensures Marker(k) in DropSources(n, s) ==> Marker(k) in s
    ensures Marker(k) in s && k != n ==> Marker(k) in DropSources(n, s)
    decreases |s|
  {
    if |s| >= 2 && s[0] == Conj && s[1] == Marker(n) {
      DroppedSources(n, s[2..], k);
      assert s == [s[0], s[1]] + s[2..];
    } else if |s| >= 3 && s[0] == Conj && s[1] == Source && s[2] == Marker(n) {
      DroppedSources(n, s[3..], k);
      assert s == [s[0], s[1], s[2]] + s[3..];
    }
  }

  lemma {:induction false} MarkersOnceKeeps(s: Sentence, k: nat)
    ensures Marker(k) in MarkersOnce(s) <==> Marker(k) in s
    decreases |s|
  {
    if s != [] {
      var rest := if s[0].Marker? then DropMarkers(s[0].n, s[1..]) else s[1..];
      if s[0].Marker? {
        DropsShorten(s[0].n, s[1..]);
        DroppedMarkers(s[0].n, s[1..], k);
      }
      MarkersOnceKeeps(rest, k);
      assert s == [s[0]] + s[1..];
    }
  }

  lemma {:induction false} SourcesOnceKeeps(s: Sentence, k: nat)
    ensures Marker(k) in SourcesOnce(s) <==> Marker(k) in s
    decreases |s|
  {
    if |s| >= 2 && s[0] == Source && s[1].Marker? {
      DropsShorten(s[1].n, s[2..]);
      DroppedSources(s[1].n, s[2..], k);
      SourcesOnceKeeps(DropSources(s[1].n, s[2..]), k);
      assert s == [s[0], s[1]] + s[2..];
    } else if s != [] {
      SourcesOnceKeeps(s[1..], k);
      assert s == [s[0]] + s[1..];
    }
  }

  lemma {:induction false} NotInHas(numbers: seq<nat>, s: Sentence, k: nat)
    ensures k in NotIn(numbers, s) <==> k in numbers && Marker(k) !in s
  {
    if numbers != [] {
      NotInHas(numbers[1..], s, k);
      assert numbers == [numbers[0]] + numbers[1..];
    }
  }

  lemma ExtendedHas(s: Sentence, added: seq<nat>, k: nat)
    ensures Marker(k) in Extended(s, added) <==> Marker(k) in s || k in added
  {
    if added != [] {
      var at := AfterLastMarker(s);
      assert s == s[..at] + s[at..];
      if k in added {
        var i :| 0 <= i < |added| && added[i] == k;
        assert AsMarkers(added)[i] == Marker(k);
      }
    }
  }

  lemma RedirectedHas(s: Sentence, dead: set<nat>, cover: seq<nat>, k: nat)
    requires cover != [] && forall n :: n in dead ==> Marker(n) in s
    ensures Marker(k) in Redirected(s, dead, cover) <==>
      (Marker(k) in s && k !in dead) || (dead != {} && k == cover[0])
  {
    if dead != {} {
      var r := Replaced(s, dead, cover[0]);
      if Marker(k) in s && k !in dead {
        var i :| 0 <= i < |s| && s[i] == Marker(k);
        assert r[i] == s[i];
      }
      var d :| d in dead;
      var j :| 0 <= j < |s| && s[j] == Marker(d);
      assert r[j] == Marker(cover[0]);
    }
  }

  /** After a rewrite the markers are the old ones without the dead, and the cover. */
  lemma RewrittenHas(s: Sentence, dead: set<nat>, cover: seq<nat>, k: nat)
    requires cover != [] && forall n :: n in dead ==> Marker(n) in s
    ensures Marker(k) in Rewritten(s, dead, cover).sentence <==> (Marker(k) in s && k !in dead) || k in cover
  {
    var redirected := Redirected(s, dead, cover);
    var added := NotIn(cover, redirected);
    RedirectedHas(s, dead, cover, k);
    NotInHas(cover, redirected, k);
    ExtendedHas(redirected, added, k);
    SourcesOnceKeeps(Extended(redirected, added), k);
    MarkersOnceKeeps(SourcesOnce(Extended(redirected, added)), k);
  }

  lemma MarkersHas(s: Sentence, k: nat)
    ensures k in Markers(s) <==> Marker(k) in s
  {
    if Marker(k) in s {
      assert Marker(k).Marker?;
    }
  }

  // ------------------------------------------------------------------ repeated markers

  /** The tokens go on with the marker again, white space aside. */
  predicate Repeats(n: nat, rest: Sentence) {
    || (|rest| >= 1 && rest[0] == Marker(n))
    || (|rest| >= 2 && rest[0] == Gap && rest[1] == Marker(n))
  }

  predicate NoRepeats(s: Sentence) {
    forall i :: 0 <= i < |s| && s[i].Marker? ==> !Repeats(s[i].n, s[i + 1..])
  }

  lemma {:induction false} DropsAllRepeats(n: nat, s: Sentence)
    ensures !Repeats(n, DropMarkers(n, s))
    decreases |s|
  {
    if |s| >= 1 && s[0] == Marker(n) {
      DropsAllRepeats(n, s[1..]);
    } else if |s| >= 2 && s[0] == Gap && s[1] == Marker(n) {
      DropsAllRepeats(n, s[2..]);
    }
  }

  lemma OnceStartsAlike(n: nat, s: Sentence)
    requires !Repeats(n, s)
    ensures !Repeats(n, MarkersOnce(s))
  {
    if s != [] && s[0] == Gap {
      assert MarkersOnce(s) == [Gap] + MarkersOnce(s[1..]);
    }
  }

  lemma NoRepeatsOnMore(t: Token, s: Sentence)
    requires NoRepeats(s) && (t.Marker? ==> !Repeats(t.n, s))
    ensures NoRepeats([t] + s)
  {
    var longer := [t] + s;
    forall i | 0 <= i < |longer| && longer[i].Marker? ensures !Repeats(longer[i].n, longer[i + 1..]) {
      if i == 0 {
        assert longer[1..] == s;
      } else {
        assert longer[i + 1..] == s[i..] && s[i - 1].Marker?;
      }
    }
  }

  lemma {:induction false} OnceHasNoRepeats(s: Sentence)
    ensures NoRepeats(MarkersOnce(s))
    decreases |s|
  {
    if s != [] {
      var rest := if s[0].Marker? then DropMarkers(s[0].n, s[1..]) else s[1..];
      if s[0].Marker? {
        DropsShorten(s[0].n, s[1..]);
        DropsAllRepeats(s[0].n, s[1..]);
        OnceStartsAlike(s[0].n, rest);
      }
      OnceHasNoRepeats(rest);
      NoRepeatsOnMore(s[0], MarkersOnce(rest));
    }
  }

  /** A changed sentence never cites a source twice in a row. */
  lemma {:induction false} ChangedSentencesDoNotRepeat(s: Sentence, have: Sources)
    requires Repaired(s, have).sentence != s
    ensures NoRepeats(Repaired(s, have).sentence)
  {
    var cover, dead := Cover(have, Missing(s, have)), Dead(s, have);
    var redirected := Redirected(s, dead, cover);
    OnceHasNoRepeats(SourcesOnce(Extended(redirected, NotIn(cover, redirected))));
  }

  // ------------------------------------------------------------------ the guarantees

  predicate NeedsRepair(s: Sentence, have: Sources) {
    Cited(s, have) != {} && Missing(s, have) != {}
  }

  /** The sources a repaired sentence cites: the live ones it cited and the cover. */
  lemma {:induction false} RepairedCites(s: Sentence, have: Sources, k: nat)
    requires NeedsRepair(s, have)
    ensures var cover := Cover(have, Missing(s, have));
      && cover != []
      && (k in Cited(Repaired(s, have).sentence, have) <==>
            (k in Cited(s, have) && k !in Dead(s, have)) || k in cover)
  {
    var missing := Missing(s, have);
    var cover, dead := Cover(have, missing), Dead(s, have);
    CoverCovers(have, missing);
    var f :| f in missing;
    assert Covers(have, cover, f);
    RewrittenHas(s, dead, cover, k);
    MarkersHas(s, k);
    MarkersHas(Repaired(s, have).sentence, k);
  }

  /** After repair every stated figure that some source has is in a source the sentence cites,
      if it cited one at all. */
  lemma {:induction false} EveryKnownFigureIsCovered(s: Sentence, have: Sources, f: Figure)
    requires Cited(s, have) != {} && f in Stated(s) && f in Known(have)
    ensures var r := Repaired(s, have).sentence;
      f in Stated(r) && f in FiguresOf(have, Cited(r, have))
  {
    var r := Repaired(s, have).sentence;
    RepairKeepsTheWords(s, have);
    if !NeedsRepair(s, have) {
      assert f !in Missing(s, have);
    } else {
      if f in Missing(s, have) {
        CoverCovers(have, Missing(s, have));
        var n :| n in Cover(have, Missing(s, have)) && f in FiguresIn(have, n);
        RepairedCites(s, have, n);
      } else {
        var n :| n in Cited(s, have) && f in FiguresIn(have, n);
        assert f in FiguresIn(have, n) * Stated(s);
        RepairedCites(s, have, n);
      }
    }
  }

  /** In a changed sentence every citation of a retrieved source is to one with a stated
      figure. */
  lemma {:induction false} ChangedCitationsAreSupported(s: Sentence, have: Sources, n: nat)
    requires Repaired(s, have).sentence != s && n in Cited(Repaired(s, have).sentence, have)
    ensures FiguresIn(have, n) * Stated(Repaired(s, have).sentence) != {}
  {
    RepairKeepsTheWords(s, have);
    RepairedCites(s, have, n);
    var missing := Missing(s, have);
    if n in Cover(have, missing) {
      CoverCovers(have, missing);
      assert FiguresIn(have, n) * missing <= FiguresIn(have, n) * Stated(s);
    }
  }

  /** Repairing a repaired sentence changes nothing. */
  lemma {:induction false} RepairIsIdempotent(s: Sentence, have: Sources)
    ensures Repaired(Repaired(s, have).sentence, have) == Repair(Repaired(s, have).sentence, 0)
  {
    var r := Repaired(s, have).sentence;
    if NeedsRepair(s, have) {
      RepairKeepsTheWords(s, have);
      forall f | f in Missing(r, have) ensures false {
        EveryKnownFigureIsCovered(s, have, f);
      }
    }
  }

  /** The first source of the cover was not cited before. */
  lemma {:induction false} CoverIsNew(s: Sentence, have: Sources, n: nat)
    requires n in Cover(have, Missing(s, have))
    ensures n !in Cited(s, have)
  {
    CoverCovers(have, Missing(s, have));
    var f :| f in FiguresIn(have, n) * Missing(s, have);
  }

  lemma RewriteCounts(s: Sentence, dead: set<nat>, cover: seq<nat>)
    requires cover != [] && (dead != {} || Marker(cover[0]) !in s)
    ensures Rewritten(s, dead, cover).changes > 0
  {
    if dead == {} {
      NotInHas(cover, s, cover[0]);
    }
  }

  lemma {:induction false} RepairIsCounted(s: Sentence, have: Sources, dead: set<nat>, cover: seq<nat>)
    requires NeedsRepair(s, have) && dead == Dead(s, have) && cover == Cover(have, Missing(s, have))
    ensures Repaired(s, have).changes > 0
    ensures Repaired(s, have).sentence != s
  {
    RepairedCites(s, have, 0);
    var n := cover[0];
    RepairedCites(s, have, n);
    CoverIsNew(s, have, n);
    CoverCovers(have, Missing(s, have));
    MarkersHas(s, n);
    RewriteCounts(s, dead, cover);
    assert n in Cited(Repaired(s, have).sentence, have);
  }

  /** The count is 0 exactly when nothing needed repair, which is exactly when the sentence is
      left as it was. */
  lemma ChangesAreCounted(s: Sentence, have: Sources)
    ensures Repaired(s, have).changes == 0 <==> !NeedsRepair(s, have)
    ensures Repaired(s, have).sentence == s <==> !NeedsRepair(s, have)
  {
    if NeedsRepair(s, have) {
      RepairIsCounted(s, have, Dead(s, have), Cover(have, Missing(s, have)));
    }
  }
}
