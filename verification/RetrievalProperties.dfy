/** What retrieval returns, for every ranked list the queries answer with. */
module RetrievalProperties {
  import opened Common
  import opened Access
  import opened Retrieval

  // ------------------------------------------------------------------ fusion

  predicate DistinctKeys(fused: seq<Candidate>) {
    forall i, j :: 0 <= i < j < |fused| ==> KeyOf(fused[i]) != KeyOf(fused[j])
  }

  function ScoreOf(fused: seq<Candidate>, key: Key): real {
    var i := Find(fused, key);
    if i.Some? then fused[i.value].score else 0.0
  }

  function SimilarityOf(fused: seq<Candidate>, key: Key): Option<real> {
    var i := Find(fused, key);
    if i.Some? then fused[i.value].similarity else None
  }

  lemma FindUnique(fused: seq<Candidate>, i: nat)
    requires DistinctKeys(fused) && i < |fused|
    ensures Find(fused, KeyOf(fused[i])) == Some(i)
  {
    var j := Find(fused, KeyOf(fused[i]));
  }

  /** One hit adds its share to its own candidate and touches no other. */
  lemma FuseHitStep(f: seq<Candidate>, table: Table, kind: Kind, share: real, hit: Hit, key: Key)
    requires DistinctKeys(f)
    ensures var g := FuseHit(f, table, kind, share, hit);
      var mine := key == Key(table, hit.row.id);
      && DistinctKeys(g)
      && (Find(g, key).Some? <==> Find(f, key).Some? || mine)
      && ScoreOf(g, key) == ScoreOf(f, key) + (if mine then share else 0.0)
      && SimilarityOf(g, key) == (if mine && kind.Vector? then Some(hit.score) else SimilarityOf(f, key))
  {
    var g := FuseHit(f, table, kind, share, hit);
    var own := Key(table, hit.row.id);
    var at := Find(f, own);
    var i := if at.Some? then at.value else |f|;
    assert KeyOf(g[i]) == own && forall j :: 0 <= j < |f| && j != i ==> g[j] == f[j];
    FindUnique(g, i);
    var was := Find(f, key);
    if was.Some? && was.value != i {
      FindUnique(g, was.value);
    }
  }

  /** The reciprocal ranks of a key over the first n hits of a list. */
  function SharesIn(list: Ranked, n: nat, key: Key): real
    requires n <= |list.hits|
  {
    if n == 0 then 0.0
    else
      SharesIn(list, n - 1, key)
        + (if key == Key(list.table, list.hits[n - 1].row.id) then 1.0 / (60.0 + n as real) else 0.0)
  }

  function Shares(lists: seq<Ranked>, key: Key): real {
    if lists == [] then 0.0
    else Shares(lists[..|lists| - 1], key) + SharesIn(lists[|lists| - 1], |lists[|lists| - 1].hits|, key)
  }

  /** One of the first n hits has the key. */
  predicate AppearsIn(list: Ranked, n: nat, key: Key)
    requires n <= |list.hits|
  {
    n > 0 && (key == Key(list.table, list.hits[n - 1].row.id) || AppearsIn(list, n - 1, key))
  }

  predicate Appears(lists: seq<Ranked>, key: Key) {
    lists != [] && (AppearsIn(lists[|lists| - 1], |lists[|lists| - 1].hits|, key) || Appears(lists[..|lists| - 1], key))
  }

  lemma {:induction false} FuseHitsSum(f: seq<Candidate>, list: Ranked, n: nat, key: Key)
    requires DistinctKeys(f) && n <= |list.hits|
    ensures var g := FuseHits(f, list, n);
      && DistinctKeys(g)
      && (Find(g, key).Some? <==> Find(f, key).Some? || AppearsIn(list, n, key))
      && ScoreOf(g, key) == ScoreOf(f, key) + SharesIn(list, n, key)
  {
    if n > 0 {
      FuseHitsSum(f, list, n - 1, key);
      FuseHitStep(FuseHits(f, list, n - 1), list.table, list.kind, Share(n), list.hits[n - 1], key);
    }
  }

  /** Every row some query returned is one candidate, and its score is the sum of 1 / (60 + rank)
      over its ranks in the lists. */
  lemma {:induction false} ScoreIsTheSumOfShares(lists: seq<Ranked>, key: Key)
    ensures var fused := Fused(lists);
      && DistinctKeys(fused) && (Find(fused, key).Some? <==> Appears(lists, key))
      && ScoreOf(fused, key) == Shares(lists, key)
  {
    if lists != [] {
      var n := |lists| - 1;
      ScoreIsTheSumOfShares(lists[..n], key);
      FuseHitsSum(Fused(lists[..n]), lists[n], |lists[n].hits|, key);
    }
  }

  // ------------------------------------------------------------------ where rows come from

  predicate FromHit(lists: seq<Ranked>, table: Table, row: Row) {
    exists k, i :: 0 <= k < |lists| && 0 <= i < |lists[k].hits| && lists[k].table == table && lists[k].hits[i].row == row
  }

  lemma {:induction false} FuseHitsRows(f: seq<Candidate>, list: Ranked, n: nat, c: Candidate)
    requires n <= |list.hits| && c in FuseHits(f, list, n)
    ensures (exists d :: d in f && d.table == c.table && d.row == c.row)
         || (exists i :: 0 <= i < n && list.table == c.table && list.hits[i].row == c.row)
  {
    if n > 0 {
      var g := FuseHits(f, list, n - 1);
      var at := Find(g, Key(list.table, list.hits[n - 1].row.id));
      if c !in g {
        if at.Some? {
          assert c.table == g[at.value].table && c.row == g[at.value].row;
          FuseHitsRows(f, list, n - 1, g[at.value]);
        }
      } else {
        FuseHitsRows(f, list, n - 1, c);
      }
    }
  }

  lemma {:induction false} CandidatesComeFromHits(lists: seq<Ranked>, c: Candidate)
    requires c in Fused(lists)
    ensures FromHit(lists, c.table, c.row)
  {
    var n := |lists| - 1;
    var before := Fused(lists[..n]);
    FuseHitsRows(before, lists[n], |lists[n].hits|, c);
    if d :| d in before && d.table == c.table && d.row == c.row {
      CandidatesComeFromHits(lists[..n], d);
      var k, i :| 0 <= k < n && 0 <= i < |lists[..n][k].hits| && lists[..n][k].table == d.table && lists[..n][k].hits[i].row == d.row;
      assert lists[k] == lists[..n][k];
    } else {
      var i :| 0 <= i < |lists[n].hits| && lists[n].table == c.table && lists[n].hits[i].row == c.row;
    }
  }

  // ------------------------------------------------------------------ the gate

  lemma {:induction false} KeptHas(fused: seq<Candidate>, floor: real, c: Candidate)
    ensures c in Kept(fused, floor) <==> c in fused && Passes(c, floor)
  {
    if fused != [] {
      KeptHas(fused[..|fused| - 1], floor, c);
      assert fused == fused[..|fused| - 1] + [fused[|fused| - 1]];
    }
  }

  lemma {:induction false} MissedHas(fused: seq<Candidate>, floor: real, settings: Settings, c: Candidate)
    ensures c in Missed(fused, floor, settings) <==> c in fused && NearlyPasses(c, floor, settings)
  {
    if fused != [] {
      MissedHas(fused[..|fused| - 1], floor, settings, c);
      assert fused == fused[..|fused| - 1] + [fused[|fused| - 1]];
    }
  }

  predicate IsBest(fused: seq<Candidate>, best: Option<real>) {
    && (forall c :: c in fused && c.similarity.Some? ==> best.Some? && c.similarity.value <= best.value)
    && (best.Some? ==> exists c :: c in fused && c.similarity == best)
  }

  lemma {:induction false} BestIsMaximum(fused: seq<Candidate>)
    ensures IsBest(fused, BestSimilarity(fused))
  {
    if fused != [] {
      var n := |fused| - 1;
      BestIsMaximum(fused[..n]);
      assert fused == fused[..n] + [fused[n]];
      assert fused[n] in fused;
    }
  }

  predicate Relevant(c: Candidate, threshold: real) {
    c.similarity.Some? && c.similarity.value >= threshold
  }

  /** The gate lets nothing through exactly when no candidate reaches the threshold: the relative
      margin alone never empties it. */
  lemma GateIsEmptyIff(fused: seq<Candidate>, settings: Settings)
    requires settings.relativeMargin >= 0.0
    ensures Kept(fused, Floor(fused, settings)) == [] <==> forall c :: c in fused ==> !Relevant(c, settings.threshold)
  {
    var floor := Floor(fused, settings);
    var kept := Kept(fused, floor);
    BestIsMaximum(fused);
    if kept != [] {
      KeptHas(fused, floor, kept[0]);
      assert Relevant(kept[0], settings.threshold);
    } else if c :| c in fused && Relevant(c, settings.threshold) {
      var d :| d in fused && d.similarity == BestSimilarity(fused);
      KeptHas(fused, floor, d);
    }
  }

  /** A candidate gets through the gate exactly when it reaches the threshold and no other is more
      than the relative margin better. */
  lemma SurvivesIff(fused: seq<Candidate>, settings: Settings, c: Candidate)
    requires c in fused
    ensures Passes(c, Floor(fused, settings)) <==>
      && Relevant(c, settings.threshold)
      && forall d :: d in fused && d.similarity.Some? ==>
           c.similarity.value >= d.similarity.value - settings.relativeMargin
  {
    BestIsMaximum(fused);
    if c.similarity.Some? {
      var d :| d in fused && d.similarity == BestSimilarity(fused);
    }
  }

  // ------------------------------------------------------------------ sections

  predicate BestFirst(chunks: seq<Candidate>) {
    forall i, j :: 0 <= i < j < |chunks| ==> chunks[i].score >= chunks[j].score
  }

  function WithScore(chunks: seq<Candidate>, score: real): seq<Candidate> {
    if chunks == [] then []
    else
      var last := chunks[|chunks| - 1];
      WithScore(chunks[..|chunks| - 1], score) + (if last.score == score then [last] else [])
  }

  lemma {:induction false} InsertSorts(c: Candidate, sorted: seq<Candidate>)
    requires BestFirst(sorted)
    ensures BestFirst(Insert(c, sorted)) && |Insert(c, sorted)| == |sorted| + 1
    ensures forall d :: d in Insert(c, sorted) <==> d == c || d in sorted
  {
    if sorted != [] {
      var init, last := sorted[..|sorted| - 1], sorted[|sorted| - 1];
      assert sorted == init + [last];
      if last.score < c.score {
        InsertSorts(c, init);
        assert forall i :: 0 <= i < |init| ==> init[i] == sorted[i] && init[i].score >= last.score;
        assert forall d :: d in Insert(c, init) ==> d.score >= last.score;
      }
    }
  }

  lemma WithScoreMore(chunks: seq<Candidate>, c: Candidate, score: real)
    ensures WithScore(chunks + [c], score) == if c.score == score then WithScore(chunks, score) + [c] else WithScore(chunks, score)
  {
    assert (chunks + [c])[..|chunks|] == chunks;
  }

  lemma {:induction false} InsertIsStable(c: Candidate, sorted: seq<Candidate>, score: real)
    ensures WithScore(Insert(c, sorted), score) ==
      if c.score == score then WithScore(sorted, score) + [c] else WithScore(sorted, score)
  {
    if sorted == [] {
      assert [] + [c] == [c];
      WithScoreMore([], c, score);
    } else {
      var init, last := sorted[..|sorted| - 1], sorted[|sorted| - 1];
      assert sorted == init + [last];
      if last.score >= c.score {
        WithScoreMore(sorted, c, score);
      } else {
        InsertIsStable(c, init, score);
        WithScoreMore(Insert(c, init), last, score);
        WithScoreMore(init, last, score);
      }
    }
  }

  lemma {:induction false} SortOrders(chunks: seq<Candidate>)
    ensures BestFirst(Sorted(chunks)) && |Sorted(chunks)| == |chunks|
    ensures forall c :: c in Sorted(chunks) <==> c in chunks
  {
    if chunks != [] {
      var init, last := chunks[..|chunks| - 1], chunks[|chunks| - 1];
      SortOrders(init);
      InsertSorts(last, Sorted(init));
      assert chunks == init + [last];
    }
  }

  lemma {:induction false} SortKeepsEquals(chunks: seq<Candidate>, score: real)
    ensures WithScore(Sorted(chunks), score) == WithScore(chunks, score)
  {
    if chunks != [] {
      var init, last := chunks[..|chunks| - 1], chunks[|chunks| - 1];
      SortKeepsEquals(init, score);
      InsertIsStable(last, Sorted(init), score);
      assert chunks == init + [last];
      WithScoreMore(init, last, score);
    }
  }

  /** Sorting puts the best first and keeps the order of equals. */
  lemma SortIsStable(chunks: seq<Candidate>, score: real)
    ensures BestFirst(Sorted(chunks)) && |Sorted(chunks)| == |chunks|
    ensures WithScore(Sorted(chunks), score) == WithScore(chunks, score)
  {
    SortOrders(chunks);
    SortKeepsEquals(chunks, score);
  }

  /** Some match of the section of c that scores at least as much. */
  predicate Represented(chunks: seq<Candidate>, c: Candidate) {
    exists d :: d in chunks && SectionOf(d) == SectionOf(c) && d.score >= c.score
  }

  predicate OnePerSection(chunks: seq<Candidate>) {
    forall i, j :: 0 <= i < j < |chunks| ==> SectionOf(chunks[i]) != SectionOf(chunks[j])
  }

  lemma {:induction false} FirstsAreOrdered(sorted: seq<Candidate>)
    requires BestFirst(sorted)
    ensures BestFirst(Firsts(sorted)) && OnePerSection(Firsts(sorted))
    ensures forall c :: c in Firsts(sorted) ==> c in sorted
  {
    if sorted != [] {
      var init, last := sorted[..|sorted| - 1], sorted[|sorted| - 1];
      FirstsAreOrdered(init);
      assert sorted == init + [last];
      forall i | 0 <= i < |Firsts(init)| ensures Firsts(init)[i].score >= last.score {
        assert Firsts(init)[i] in init;
        var k :| 0 <= k < |init| && init[k] == Firsts(init)[i];
        assert sorted[k] == init[k];
      }
    }
  }

  lemma RepresentedInMore(chunks: seq<Candidate>, c: Candidate, more: seq<Candidate>)
    requires Represented(chunks, c)
    ensures Represented(chunks + more, c)
  {
    var d :| d in chunks && SectionOf(d) == SectionOf(c) && d.score >= c.score;
    assert d in chunks + more;
  }

  lemma {:induction false} LastIsRepresented(sorted: seq<Candidate>)
    requires sorted != [] && BestFirst(sorted)
    ensures Represented(Firsts(sorted), sorted[|sorted| - 1])
  {
    var init, last := sorted[..|sorted| - 1], sorted[|sorted| - 1];
    if HasSection(Firsts(init), SectionOf(last)) {
      var d :| d in Firsts(init) && SectionOf(d) == SectionOf(last);
      FirstsAreOrdered(init);
      var k :| 0 <= k < |init| && init[k] == d;
      assert sorted[k] == d;
    } else {
      assert last in Firsts(init) + [last];
    }
  }

  lemma {:induction false} FirstsRepresent(sorted: seq<Candidate>, c: Candidate)
    requires BestFirst(sorted) && c in sorted
    ensures Represented(Firsts(sorted), c)
  {
    var init, last := sorted[..|sorted| - 1], sorted[|sorted| - 1];
    assert sorted == init + [last];
    if c in init {
      FirstsRepresent(init, c);
      RepresentedInMore(Firsts(init), c, [last]);
    } else {
      LastIsRepresented(sorted);
    }
  }

  /** The best-scoring match of every section that has one, best first. */
  lemma BestOfEachSection(chunks: seq<Candidate>)
    ensures var distinct := DistinctSections(chunks);
      && BestFirst(distinct) && OnePerSection(distinct)
      && (forall c :: c in distinct ==> c in chunks)
      && (forall c :: c in chunks ==> Represented(distinct, c))
      && (distinct == [] <==> chunks == [])
  {
    SortOrders(chunks);
    FirstsAreOrdered(Sorted(chunks));
    var distinct := DistinctSections(chunks);
    forall c | c in chunks ensures Represented(distinct, c) {
      FirstsRepresent(Sorted(chunks), c);
    }
    if chunks != [] {
      assert chunks[0] in chunks;
      assert Represented(distinct, chunks[0]);
    }
    if distinct != [] {
      assert distinct[0] in distinct;
    }
  }

  /** Two candidates are of one section exactly if they are of one table, document and parent, or,
      having no parent, of one locator. */
  lemma SameSectionIff(c: Candidate, d: Candidate)
    ensures SectionOf(c) == SectionOf(d) <==>
      && c.table == d.table && c.row.document == d.row.document && c.row.parentIndex == d.row.parentIndex
      && (c.row.parentIndex.None? ==> c.row.locator == d.row.locator)
  {
  }

  // ------------------------------------------------------------------ the result

  lemma TakeHas(chunks: seq<Candidate>, k: nat, c: Candidate)
    requires c in Take(chunks, k)
    ensures c in chunks
  {
  }

  function Wanted(settings: Settings, topK: Option<nat>): nat {
    if topK.Some? && topK.value != 0 then topK.value else settings.topK
  }

  /** Nothing is returned exactly when no candidate reaches the threshold; what is returned are
      survivors of the gate, as many as wanted at most, best first and one per section. */
  lemma ResultIsBestFirst(lists: seq<Ranked>, settings: Settings, topK: Option<nat>)
    requires settings.relativeMargin >= 0.0 && settings.topK >= 1
    ensures var r, fused := Retrieved(lists, settings, topK), Fused(lists);
      && (r.chunks == [] <==> forall d :: d in fused ==> !Relevant(d, settings.threshold))
      && |r.chunks| <= Wanted(settings, topK) && BestFirst(r.chunks) && OnePerSection(r.chunks)
      && (forall c :: c in r.chunks ==> c in fused && Passes(c, Floor(fused, settings)))
  {
    var fused, floor := Fused(lists), Floor(Fused(lists), settings);
    GateIsEmptyIff(fused, settings);
    BestOfEachSection(Kept(fused, floor));
    forall c | c in Retrieved(lists, settings, topK).chunks ensures c in fused && Passes(c, floor) {
      TakeHas(DistinctSections(Kept(fused, floor)), Wanted(settings, topK), c);
      KeptHas(fused, floor, c);
    }
  }

  /** Every survivor of the gate is represented by its section's best in the result, or the result
      is full and its last scores no worse. */
  lemma {:induction false} ResultIsTheTop(lists: seq<Ranked>, settings: Settings, topK: Option<nat>, c: Candidate)
    requires settings.topK >= 1 && c in Fused(lists) && Passes(c, Floor(Fused(lists), settings))
    ensures var r, k := Retrieved(lists, settings, topK), Wanted(settings, topK);
      Represented(r.chunks, c) || (|r.chunks| == k && r.chunks[k - 1].score >= c.score)
  {
    KeptHas(Fused(lists), Floor(Fused(lists), settings), c);
    TopRepresents(Kept(Fused(lists), Floor(Fused(lists), settings)), Wanted(settings, topK), c);
  }

  /** The top of the distinct sections represents a candidate, or is full of better ones. */
  lemma TopRepresents(kept: seq<Candidate>, k: nat, c: Candidate)
    requires c in kept && k >= 1
    ensures var top := Take(DistinctSections(kept), k);
      Represented(top, c) || (|top| == k && top[k - 1].score >= c.score)
  {
    BestOfEachSection(kept);
    assert Represented(DistinctSections(kept), c);
    var d :| d in DistinctSections(kept) && SectionOf(d) == SectionOf(c) && d.score >= c.score;
    TopHolds(DistinctSections(kept), k, d);
  }

  lemma TopHolds(chunks: seq<Candidate>, k: nat, d: Candidate)
    requires BestFirst(chunks) && d in chunks && k >= 1
    ensures d in Take(chunks, k) || (|Take(chunks, k)| == k && Take(chunks, k)[k - 1].score >= d.score)
  {
    var i :| 0 <= i < |chunks| && chunks[i] == d;
    if |chunks| > k && i < k {
      assert chunks[..k][i] == d;
    }
  }

  /** Near misses exist only when nothing is returned; none of them is relevant, and each is
      within the review margin of the threshold - in its similarity, when the threshold exceeds
      the margin. */
  lemma {:induction false} NearMissesAreNear(lists: seq<Ranked>, settings: Settings, topK: Option<nat>, c: Candidate)
    requires settings.relativeMargin >= 0.0 && settings.topK >= 1
    requires c in Retrieved(lists, settings, topK).nearMisses
    ensures Retrieved(lists, settings, topK).chunks == []
    ensures c in Fused(lists) && !Relevant(c, settings.threshold)
    ensures OrZero(c.similarity) >= settings.threshold - settings.reviewMargin
    ensures settings.threshold > settings.reviewMargin ==>
      c.similarity.Some? && settings.threshold - settings.reviewMargin <= c.similarity.value < settings.threshold
  {
    var fused := Fused(lists);
    var floor := Floor(fused, settings);
    var missed := Missed(fused, floor, settings);
    GateIsEmptyIff(fused, settings);
    BestOfEachSection(missed);
    BestOfEachSection(Kept(fused, floor));
    TakeHas(DistinctSections(missed), settings.reviewMax, c);
    MissedHas(fused, floor, settings, c);
  }

  /** When nothing is returned, a candidate within the review margin is represented among the near
      misses, or these are full of better ones. */
  lemma {:induction false} NearMissesAreTheTop(lists: seq<Ranked>, settings: Settings, topK: Option<nat>, c: Candidate)
    requires settings.topK >= 1 && settings.reviewMax >= 1 && settings.reviewMargin != 0.0
    requires Retrieved(lists, settings, topK).chunks == []
    requires c in Fused(lists) && OrZero(c.similarity) >= settings.threshold - settings.reviewMargin
    ensures var near := Retrieved(lists, settings, topK).nearMisses;
      Represented(near, c) || (|near| == settings.reviewMax && near[settings.reviewMax - 1].score >= c.score)
  {
    var fused := Fused(lists);
    var floor := Floor(fused, settings);
    BestOfEachSection(Kept(fused, floor));
    KeptHas(fused, floor, c);
    MissedHas(fused, floor, settings, c);
    TopRepresents(Missed(fused, floor, settings), settings.reviewMax, c);
  }

  // ------------------------------------------------------------------ access

  /** The lists answer queries filtered for the scope, over tables under their CHECK. */
  predicate FilteredFor(lists: seq<Ranked>, scope: AccessScope) {
    forall k, i :: 0 <= k < |lists| && 0 <= i < |lists[k].hits| ==>
      var row := lists[k].hits[i].row;
      TableAdmits(lists[k].table, row.level) && SqlSelects(lists[k].table, scope, row.department, row.level)
  }

  /** Every returned chunk and every near miss is one the caller may read. */
  lemma {:induction false} OnlyReadableRows(lists: seq<Ranked>, settings: Settings, topK: Option<nat>, scope: AccessScope, c: Candidate)
    requires FilteredFor(lists, scope)
    requires c in Retrieved(lists, settings, topK).chunks || c in Retrieved(lists, settings, topK).nearMisses
    ensures CanRead(scope, c.row.department, c.row.level)
  {
    var fused := Fused(lists);
    var floor := Floor(fused, settings);
    BestOfEachSection(Kept(fused, floor));
    BestOfEachSection(Missed(fused, floor, settings));
    KeptHas(fused, floor, c);
    MissedHas(fused, floor, settings, c);
    assert c in fused;
    CandidatesComeFromHits(lists, c);
    LayersAgree(c.table, scope, c.row.department, c.row.level);
  }
}
