/** Reciprocal rank fusion: what ranks are worth, and what else a candidate keeps of its hits. */
module RankFusion {
  import opened Common
  import opened Access
  import opened Retrieval
  import opened RetrievalProperties

  // ------------------------------------------------------------------ ranks

  predicate HitAt(list: Ranked, n: nat, key: Key)
    requires 1 <= n <= |list.hits|
  {
    key == Key(list.table, list.hits[n - 1].row.id)
  }

  /** The rank of a key among the first n hits, 1 for the first. */
  function RankUpTo(list: Ranked, n: nat, key: Key): (rank: Option<nat>)
    requires n <= |list.hits|
    ensures rank.Some? ==> 1 <= rank.value <= n && HitAt(list, rank.value, key)
    ensures rank.None? ==> forall m :: 1 <= m <= n ==> !HitAt(list, m, key)
  {
    if n == 0 then None else if HitAt(list, n, key) then Some(n) else RankUpTo(list, n - 1, key)
  }

  function RankOf(list: Ranked, key: Key): Option<nat> {
    RankUpTo(list, |list.hits|, key)
  }

  /** A query answers with each row once. */
  predicate Once(list: Ranked) {
    forall i, j :: 0 <= i < j < |list.hits| ==> list.hits[i].row.id != list.hits[j].row.id
  }

  predicate AllOnce(lists: seq<Ranked>) {
    forall k :: 0 <= k < |lists| ==> Once(lists[k])
  }

  /** What a rank is worth: 1 / (60 + rank), and nothing if there is none. */
  function Worth(rank: Option<nat>): real {
    if rank.Some? then 1.0 / (60.0 + rank.value as real) else 0.0
  }

  lemma Reciprocals(m: nat, n: nat)
    requires m < n
    ensures 1.0 / (60.0 + m as real) > 1.0 / (60.0 + n as real) > 0.0
  {
    var a, b := 60.0 + m as real, 60.0 + n as real;
    assert 1.0 / a * a == 1.0 && 1.0 / b * b == 1.0;
    if 1.0 / a <= 1.0 / b {
      ProductGrows(1.0 / a, 1.0 / b, a);
      ProductGrowsStrictly(1.0 / b, a, b);
      assert false;
    }
  }

  lemma ProductGrows(x: real, y: real, a: real)
    requires x <= y && a > 0.0
    ensures x * a <= y * a
  {
  }

  lemma ProductGrowsStrictly(y: real, a: real, b: real)
    requires y > 0.0 && a < b
    ensures y * a < y * b
  {
  }

  lemma {:induction false} NoShares(list: Ranked, n: nat, key: Key)
    requires n <= |list.hits| && forall m :: 1 <= m <= n ==> !HitAt(list, m, key)
    ensures SharesIn(list, n, key) == 0.0
  {
    if n > 0 {
      assert !HitAt(list, n, key);
      NoShares(list, n - 1, key);
    }
  }

  lemma {:induction false} SharesAreWorth(list: Ranked, n: nat, key: Key)
    requires Once(list) && n <= |list.hits|
    ensures SharesIn(list, n, key) == Worth(RankUpTo(list, n, key))
  {
    if n > 0 {
      if HitAt(list, n, key) {
        assert forall m :: 1 <= m <= n - 1 ==> !HitAt(list, m, key);
        NoShares(list, n - 1, key);
      } else {
        SharesAreWorth(list, n - 1, key);
      }
    }
  }

  // ------------------------------------------------------------------ a better rank counts for more

  /** The list ranks a no worse than b. */
  predicate NoWorse(list: Ranked, a: Key, b: Key) {
    RankOf(list, b).Some? ==> RankOf(list, a).Some? && RankOf(list, a).value <= RankOf(list, b).value
  }

  /** The list ranks a above b, or has only a. */
  predicate Better(list: Ranked, a: Key, b: Key) {
    RankOf(list, a).Some? && (RankOf(list, b).Some? ==> RankOf(list, a).value < RankOf(list, b).value)
  }

  lemma WorthFollowsRank(list: Ranked, a: Key, b: Key)
    requires NoWorse(list, a, b)
    ensures Worth(RankOf(list, a)) >= Worth(RankOf(list, b)) >= 0.0
    ensures Better(list, a, b) ==> Worth(RankOf(list, a)) > Worth(RankOf(list, b))
  {
    var ra, rb := RankOf(list, a), RankOf(list, b);
    if rb.Some? {
      Reciprocals(0, rb.value);
      if ra.value < rb.value {
        Reciprocals(ra.value, rb.value);
      }
    } else if ra.Some? {
      Reciprocals(0, ra.value);
    }
  }

  lemma {:induction false} SharesFollowRanks(lists: seq<Ranked>, a: Key, b: Key)
    requires AllOnce(lists) && forall k :: 0 <= k < |lists| ==> NoWorse(lists[k], a, b)
    ensures Shares(lists, a) >= Shares(lists, b)
    ensures (exists k :: 0 <= k < |lists| && Better(lists[k], a, b)) ==> Shares(lists, a) > Shares(lists, b)
  {
    if lists != [] {
      var n := |lists| - 1;
      SharesFollowRanks(lists[..n], a, b);
      SharesAreWorth(lists[n], |lists[n].hits|, a);
      SharesAreWorth(lists[n], |lists[n].hits|, b);
      WorthFollowsRank(lists[n], a, b);
      if k :| 0 <= k < |lists| && Better(lists[k], a, b) {
        assert k < n ==> lists[..n][k] == lists[k];
      }
    }
  }

  /** A candidate that every query ranks no worse than another, and one ranks better, scores
      strictly higher; being in one more list is being ranked better there. */
  lemma {:induction false} BetterRanksScoreHigher(lists: seq<Ranked>, a: Key, b: Key)
    requires AllOnce(lists) && forall k :: 0 <= k < |lists| ==> NoWorse(lists[k], a, b)
    ensures ScoreOf(Fused(lists), a) >= ScoreOf(Fused(lists), b)
    ensures (exists k :: 0 <= k < |lists| && Better(lists[k], a, b)) ==> ScoreOf(Fused(lists), a) > ScoreOf(Fused(lists), b)
  {
    ScoreIsTheSumOfShares(lists, a);
    ScoreIsTheSumOfShares(lists, b);
    SharesFollowRanks(lists, a, b);
  }

  lemma {:induction false} OneListShares(lists: seq<Ranked>, k: nat, key: Key)
    requires AllOnce(lists) && k < |lists|
    requires forall j :: 0 <= j < |lists| && j != k ==> RankOf(lists[j], key).None?
    ensures Shares(lists, key) == Worth(RankOf(lists[k], key))
  {
    var n := |lists| - 1;
    SharesAreWorth(lists[n], |lists[n].hits|, key);
    if k < n {
      OneListShares(lists[..n], k, key);
    } else {
      NothingShared(lists[..n], key);
    }
  }

  lemma {:induction false} NothingShared(lists: seq<Ranked>, key: Key)
    requires AllOnce(lists) && forall j :: 0 <= j < |lists| ==> RankOf(lists[j], key).None?
    ensures Shares(lists, key) == 0.0
  {
    if lists != [] {
      var n := |lists| - 1;
      SharesAreWorth(lists[n], |lists[n].hits|, key);
      NothingShared(lists[..n], key);
    }
  }

  /** A row that one query alone returned scores what its rank there is worth. */
  lemma {:induction false} OneRankScores(lists: seq<Ranked>, k: nat, key: Key)
    requires AllOnce(lists) && k < |lists|
    requires forall j :: 0 <= j < |lists| && j != k ==> RankOf(lists[j], key).None?
    ensures ScoreOf(Fused(lists), key) == Worth(RankOf(lists[k], key))
  {
    ScoreIsTheSumOfShares(lists, key);
    OneListShares(lists, k, key);
  }

  lemma {:induction false} HitsShare(list: Ranked, n: nat, key: Key)
    requires n <= |list.hits|
    ensures SharesIn(list, n, key) >= 0.0 && (AppearsIn(list, n, key) ==> SharesIn(list, n, key) > 0.0)
  {
    if n > 0 {
      HitsShare(list, n - 1, key);
      Reciprocals(0, n);
    }
  }

  lemma {:induction false} AppearingShares(lists: seq<Ranked>, key: Key)
    ensures Shares(lists, key) >= 0.0 && (Appears(lists, key) ==> Shares(lists, key) > 0.0)
  {
    if lists != [] {
      var n := |lists| - 1;
      AppearingShares(lists[..n], key);
      HitsShare(lists[n], |lists[n].hits|, key);
    }
  }

  /** Every candidate scores above zero. */
  lemma ScoresArePositive(lists: seq<Ranked>, c: Candidate)
    requires c in Fused(lists)
    ensures c.score > 0.0
  {
    ScoreIsTheSumOfShares(lists, KeyOf(c));
    AppearingShares(lists, KeyOf(c));
    var i :| 0 <= i < |Fused(lists)| && Fused(lists)[i] == c;
    FindUnique(Fused(lists), i);
  }

  // ------------------------------------------------------------------ what a candidate keeps

  function FtsRankOf(fused: seq<Candidate>, key: Key): Option<real> {
    var i := Find(fused, key);
    if i.Some? then fused[i.value].ftsRank else None
  }

  lemma FtsRankStep(f: seq<Candidate>, table: Table, kind: Kind, share: real, hit: Hit, key: Key)
    requires DistinctKeys(f)
    ensures FtsRankOf(FuseHit(f, table, kind, share, hit), key)
      == if key == Key(table, hit.row.id) && kind.FullText? then Some(hit.score) else FtsRankOf(f, key)
  {
    var g := FuseHit(f, table, kind, share, hit);
    FuseHitStep(f, table, kind, share, hit, key);
    var at := Find(f, Key(table, hit.row.id));
    var i := if at.Some? then at.value else |f|;
    assert KeyOf(g[i]) == Key(table, hit.row.id) && forall j :: 0 <= j < |f| && j != i ==> g[j] == f[j];
    FindUnique(g, i);
    var was := Find(f, key);
    if was.Some? && was.value != i {
      FindUnique(g, was.value);
    }
  }

  /** The last score of this kind that the lists give the key, over the first n hits of the last. */
  function LastScore(lists: seq<Ranked>, n: nat, kind: Kind, key: Key): Option<real>
    requires if lists == [] then n == 0 else n <= |lists[|lists| - 1].hits|
    decreases |lists|, n
  {
    if lists == [] then None
    else
      var last := lists[|lists| - 1];
      if n > 0 then
        if last.kind == kind && HitAt(last, n, key) then Some(last.hits[n - 1].score)
        else LastScore(lists, n - 1, kind, key)
      else
        var before := lists[..|lists| - 1];
        LastScore(before, if before == [] then 0 else |before[|before| - 1].hits|, kind, key)
  }

  function ScoreGiven(lists: seq<Ranked>, kind: Kind, key: Key): Option<real> {
    LastScore(lists, if lists == [] then 0 else |lists[|lists| - 1].hits|, kind, key)
  }

  lemma LastScoreStart(before: seq<Ranked>, list: Ranked, kind: Kind, key: Key)
    ensures LastScore(before + [list], 0, kind, key) == ScoreGiven(before, kind, key)
  {
    assert (before + [list])[..|before|] == before;
  }

  lemma LastScoreStep(before: seq<Ranked>, list: Ranked, n: nat, kind: Kind, key: Key)
    requires 0 < n <= |list.hits|
    ensures LastScore(before + [list], n, kind, key) ==
      if list.kind == kind && HitAt(list, n, key) then Some(list.hits[n - 1].score)
      else LastScore(before + [list], n - 1, kind, key)
  {
  }

  lemma {:induction false} ScoresFollowHits(before: seq<Ranked>, f: seq<Candidate>, list: Ranked, n: nat, key: Key)
    requires DistinctKeys(f) && n <= |list.hits|
    requires SimilarityOf(f, key) == ScoreGiven(before, Vector, key) && FtsRankOf(f, key) == ScoreGiven(before, FullText, key)
    ensures SimilarityOf(FuseHits(f, list, n), key) == LastScore(before + [list], n, Vector, key)
    ensures FtsRankOf(FuseHits(f, list, n), key) == LastScore(before + [list], n, FullText, key)
  {
    if n == 0 {
      LastScoreStart(before, list, Vector, key);
      LastScoreStart(before, list, FullText, key);
    } else {
      ScoresFollowHits(before, f, list, n - 1, key);
      FuseHitsSum(f, list, n - 1, key);
      var g := FuseHits(f, list, n - 1);
      FuseHitStep(g, list.table, list.kind, Share(n), list.hits[n - 1], key);
      FtsRankStep(g, list.table, list.kind, Share(n), list.hits[n - 1], key);
      LastScoreStep(before, list, n, Vector, key);
      LastScoreStep(before, list, n, FullText, key);
    }
  }

  /** A candidate's similarity is the last score that a vector query gave it and its text rank the
      last that a full-text query did; none if none did. */
  lemma {:induction false} ScoresComeFromTheirKind(lists: seq<Ranked>, key: Key)
    ensures SimilarityOf(Fused(lists), key) == ScoreGiven(lists, Vector, key)
    ensures FtsRankOf(Fused(lists), key) == ScoreGiven(lists, FullText, key)
  {
    if lists != [] {
      var n := |lists| - 1;
      ScoresComeFromTheirKind(lists[..n], key);
      ScoreIsTheSumOfShares(lists[..n], key);
      ScoresFollowHits(lists[..n], Fused(lists[..n]), lists[n], |lists[n].hits|, key);
      assert lists[..n] + [lists[n]] == lists;
    }
  }

  // ------------------------------------------------------------------ the order of candidates

  /** The second has the candidates of the first, in their places. */
  predicate Extends(f: seq<Candidate>, g: seq<Candidate>) {
    |f| <= |g| && forall i :: 0 <= i < |f| ==> KeyOf(g[i]) == KeyOf(f[i])
  }

  lemma OneHitExtends(f: seq<Candidate>, table: Table, kind: Kind, share: real, hit: Hit)
    ensures Extends(f, FuseHit(f, table, kind, share, hit))
  {
  }

  lemma ExtendsTransitive(f: seq<Candidate>, g: seq<Candidate>, h: seq<Candidate>)
    requires Extends(f, g) && Extends(g, h)
    ensures Extends(f, h)
  {
  }

  lemma {:induction false} HitsExtend(f: seq<Candidate>, list: Ranked, m: nat, n: nat)
    requires m <= n <= |list.hits|
    ensures Extends(FuseHits(f, list, m), FuseHits(f, list, n))
  {
    if m < n {
      HitsExtend(f, list, m, n - 1);
      OneHitExtends(FuseHits(f, list, n - 1), list.table, list.kind, Share(n), list.hits[n - 1]);
      ExtendsTransitive(FuseHits(f, list, m), FuseHits(f, list, n - 1), FuseHits(f, list, n));
    }
  }

  /** Candidates stay in the order in which they were first found: more hits and more lists only
      add at the end. */
  lemma FoundFirstStaysFirst(lists: seq<Ranked>, list: Ranked, m: nat, n: nat)
    requires m <= n <= |list.hits|
    ensures Extends(FuseHits(Fused(lists), list, m), FuseHits(Fused(lists), list, n))
    ensures Extends(Fused(lists), Fused(lists + [list]))
  {
    assert (lists + [list])[..|lists|] == lists;
    HitsExtend(Fused(lists), list, 0, |list.hits|);
    HitsExtend(Fused(lists), list, m, n);
  }

  // ------------------------------------------------------------------ counts

  function CountBelow(fused: seq<Candidate>, floor: real): nat {
    if fused == [] then 0
    else CountBelow(fused[..|fused| - 1], floor) + (if Passes(fused[|fused| - 1], floor) then 0 else 1)
  }

  lemma {:induction false} KeptAndBelow(fused: seq<Candidate>, floor: real)
    ensures |Kept(fused, floor)| + CountBelow(fused, floor) == |fused|
  {
    if fused != [] {
      KeptAndBelow(fused[..|fused| - 1], floor);
    }
  }

  /** The result reports how many candidates there were and how many the gate stopped, and no more
      near misses than may be reviewed, best first and one per section. */
  lemma ResultCounts(lists: seq<Ranked>, settings: Settings, topK: Option<nat>)
    ensures var r, fused := Retrieved(lists, settings, topK), Fused(lists);
      && r.candidates == |fused| && r.below == CountBelow(fused, Floor(fused, settings))
      && |r.nearMisses| <= settings.reviewMax && BestFirst(r.nearMisses) && OnePerSection(r.nearMisses)
  {
    var fused := Fused(lists);
    var floor := Floor(fused, settings);
    KeptAndBelow(fused, floor);
    BestOfEachSection(Missed(fused, floor, settings));
  }
}
