/**
  Hybrid retrieval (`knowledge/retrieval.py`): rank fusion, the relevance gate, near misses and
  one match per section.  A query answers with an arbitrary ranked list of rows that its WHERE
  clause selects; scores are reals.
 */
module Retrieval {
  import opened Common
  import opened Labels
  import opened Access

  datatype Row = Row(
    id: nat, document: nat, department: Department, level: Label, parentIndex: Option<nat>, locator: string,
    content: string, context: string)

  datatype Kind = Vector | FullText

  datatype Hit = Hit(row: Row, score: real)

  /** One query's answer, best first. */
  datatype Ranked = Ranked(table: Table, kind: Kind, hits: seq<Hit>)

  datatype Key = Key(table: Table, id: nat)

  datatype Candidate = Candidate(table: Table, row: Row, score: real, similarity: Option<real>, ftsRank: Option<real>)

  const RRF_K := 60.0

  function Share(rank: nat): real {
    1.0 / (RRF_K + rank as real)
  }

  function KeyOf(c: Candidate): Key {
    Key(c.table, c.row.id)
  }

  // ------------------------------------------------------------------ fusion

  /** The candidates are a dictionary in the order its keys were first set. */
  function Find(fused: seq<Candidate>, key: Key): (i: Option<nat>)
    ensures i.Some? ==> i.value < |fused| && KeyOf(fused[i.value]) == key
    ensures i.None? ==> forall j :: 0 <= j < |fused| ==> KeyOf(fused[j]) != key
  {
    if fused == [] then None
    else if KeyOf(fused[|fused| - 1]) == key then Some(|fused| - 1)
    else Find(fused[..|fused| - 1], key)
  }

  function Scored(c: Candidate, kind: Kind, share: real, score: real): Candidate {
    var more := c.(score := c.score + share);
    if kind.Vector? then more.(similarity := Some(score)) else more.(ftsRank := Some(score))
  }

  function FuseHit(fused: seq<Candidate>, table: Table, kind: Kind, share: real, hit: Hit): seq<Candidate> {
    var i := Find(fused, Key(table, hit.row.id));
    if i.Some? then fused[i.value := Scored(fused[i.value], kind, share, hit.score)]
    else fused + [Scored(Candidate(table, hit.row, 0.0, None, None), kind, share, hit.score)]
  }

  /** The candidates after the first n hits of a list. */
  function FuseHits(fused: seq<Candidate>, list: Ranked, n: nat): seq<Candidate>
    requires n <= |list.hits|
  {
    if n == 0 then fused else FuseHit(FuseHits(fused, list, n - 1), list.table, list.kind, Share(n), list.hits[n - 1])
  }

  function Fused(lists: seq<Ranked>): seq<Candidate> {
    if lists == [] then []
    else
      var last := lists[|lists| - 1];
      FuseHits(Fused(lists[..|lists| - 1]), last, |last.hits|)
  }

  // ------------------------------------------------------------------ the gate

  datatype Settings = Settings(
    threshold: real, relativeMargin: real, reviewMargin: real, topK: nat, reviewMax: nat)

  function Larger(a: real, b: real): real {
    if a >= b then a else b
  }

  /** The best similarity there is. */
  function BestSimilarity(fused: seq<Candidate>): Option<real> {
    if fused == [] then None
    else
      var before, s := BestSimilarity(fused[..|fused| - 1]), fused[|fused| - 1].similarity;
      if s.None? then before else if before.None? then s else Some(Larger(before.value, s.value))
  }

  function OrZero(s: Option<real>): real {
    if s.Some? then s.value else 0.0
  }

  function Floor(fused: seq<Candidate>, settings: Settings): real {
    Larger(settings.threshold, OrZero(BestSimilarity(fused)) - settings.relativeMargin)
  }

  predicate Passes(c: Candidate, floor: real) {
    c.similarity.Some? && c.similarity.value >= floor
  }

  predicate NearlyPasses(c: Candidate, floor: real, settings: Settings) {
    !Passes(c, floor) && settings.reviewMargin != 0.0 && OrZero(c.similarity) >= settings.threshold - settings.reviewMargin
  }

  function Kept(fused: seq<Candidate>, floor: real): (kept: seq<Candidate>)
    ensures |kept| <= |fused|
  {
    if fused == [] then []
    else Kept(fused[..|fused| - 1], floor) + (if Passes(fused[|fused| - 1], floor) then [fused[|fused| - 1]] else [])
  }

  function Missed(fused: seq<Candidate>, floor: real, settings: Settings): seq<Candidate> {
    if fused == [] then []
    else
      Missed(fused[..|fused| - 1], floor, settings)
        + (if NearlyPasses(fused[|fused| - 1], floor, settings) then [fused[|fused| - 1]] else [])
  }

  // ------------------------------------------------------------------ sections

  /** A section's identity; without a parent the chunk's own locator tells. */
  datatype Section = Section(table: Table, document: nat, parentIndex: Option<nat>, locator: string)

  function SectionOf(c: Candidate): Section {
    Section(c.table, c.row.document, c.row.parentIndex, if c.row.parentIndex.None? then c.row.locator else "")
  }

  /** Stable insertion, best first: after everything that scores as much. */
  function Insert(c: Candidate, sorted: seq<Candidate>): seq<Candidate> {
    if sorted == [] then [c]
    else if sorted[|sorted| - 1].score >= c.score then sorted + [c]
    else Insert(c, sorted[..|sorted| - 1]) + [sorted[|sorted| - 1]]
  }

  function Sorted(chunks: seq<Candidate>): seq<Candidate> {
    if chunks == [] then [] else Insert(chunks[|chunks| - 1], Sorted(chunks[..|chunks| - 1]))
  }

  predicate HasSection(chunks: seq<Candidate>, section: Section) {
    exists c :: c in chunks && SectionOf(c) == section
  }

  /** The first of each section. */
  function Firsts(sorted: seq<Candidate>): seq<Candidate> {
    if sorted == [] then []
    else
      var before, c := Firsts(sorted[..|sorted| - 1]), sorted[|sorted| - 1];
      if HasSection(before, SectionOf(c)) then before else before + [c]
  }

  function DistinctSections(chunks: seq<Candidate>): seq<Candidate> {
    Firsts(Sorted(chunks))
  }

  function Take(chunks: seq<Candidate>, k: nat): seq<Candidate> {
    if |chunks| <= k then chunks else chunks[..k]
  }

  datatype Result = Result(chunks: seq<Candidate>, candidates: nat, below: nat, nearMisses: seq<Candidate>)

  function Retrieved(lists: seq<Ranked>, settings: Settings, topK: Option<nat>): Result {
    var fused := Fused(lists);
    var floor := Floor(fused, settings);
    var kept := DistinctSections(Kept(fused, floor));
    var k := if topK.Some? && topK.value != 0 then topK.value else settings.topK;
    Result(Take(kept, k), |fused|, |fused| - |Kept(fused, floor)|,
           if kept != [] then [] else Take(DistinctSections(Missed(fused, floor, settings)), settings.reviewMax))
  }

  // ------------------------------------------------------------------ the methods

  method Fuse(lists: seq<Ranked>) returns (fused: seq<Candidate>)
    ensures fused == Fused(lists)
  {
    fused := [];
    for i := 0 to |lists|
      invariant fused == Fused(lists[..i])
    {
      assert lists[..i + 1][..i] == lists[..i];
      fused := FuseList(fused, lists[i]);
    }
    assert lists[..|lists|] == lists;
  }

  method FuseList(before: seq<Candidate>, list: Ranked) returns (fused: seq<Candidate>)
    ensures fused == FuseHits(before, list, |list.hits|)
  {
    fused := before;
    for n := 0 to |list.hits|
      invariant fused == FuseHits(before, list, n)
    {
      var hit, key, rank := list.hits[n], Key(list.table, list.hits[n].row.id), n + 1;
      var at := Find(fused, key);
      var i: nat;
      if at == None {
        i := |fused|;
        fused := fused + [Candidate(list.table, hit.row, 0.0, None, None)];
      } else {
        i := at.value;
      }
      var c := fused[i].(score := fused[i].score + Share(rank));
      if list.kind == Vector {
        c := c.(similarity := Some(hit.score));
      } else {
        c := c.(ftsRank := Some(hit.score));
      }
      fused := fused[i := c];
    }
  }

  method Gate(fused: seq<Candidate>, floor: real, settings: Settings)
    returns (kept: seq<Candidate>, missed: seq<Candidate>, below: nat)
    ensures kept == Kept(fused, floor) && missed == Missed(fused, floor, settings)
    ensures below == |fused| - |kept|
  {
    kept, missed, below := [], [], 0;
    for i := 0 to |fused|
      invariant kept == Kept(fused[..i], floor) && missed == Missed(fused[..i], floor, settings)
      invariant below == i - |kept|
    {
      assert fused[..i + 1][..i] == fused[..i];
      var c := fused[i];
      if c.similarity == None || c.similarity.value < floor {
        below := below + 1;
        if settings.reviewMargin != 0.0 && OrZero(c.similarity) >= settings.threshold - settings.reviewMargin {
          missed := missed + [c];
        }
        continue;
      }
      kept := kept + [c];
    }
    assert fused[..|fused|] == fused;
  }

  method CollapseSections(chunks: seq<Candidate>) returns (distinct: seq<Candidate>)
    ensures distinct == DistinctSections(chunks)
  {
    var sorted := Sorted(chunks);
    var seen: set<Section> := {};
    distinct := [];
    for i := 0 to |sorted|
      invariant distinct == Firsts(sorted[..i])
      invariant forall section :: section in seen <==> HasSection(distinct, section)
    {
      assert sorted[..i + 1][..i] == sorted[..i];
      var c, section := sorted[i], SectionOf(sorted[i]);
      if section !in seen {
        ghost var before := distinct;
        seen := seen + {section};
        distinct := distinct + [c];
        forall other ensures HasSection(distinct, other) <==> HasSection(before, other) || other == section {
          HasSectionMore(before, c, other);
        }
      }
    }
    assert sorted[..|sorted|] == sorted;
  }

  lemma HasSectionMore(chunks: seq<Candidate>, c: Candidate, section: Section)
    ensures HasSection(chunks + [c], section) <==> HasSection(chunks, section) || SectionOf(c) == section
  {
    assert c in chunks + [c];
    assert forall d :: d in chunks + [c] <==> d in chunks || d == c;
  }

  method Retrieve(lists: seq<Ranked>, settings: Settings, topK: Option<nat>) returns (result: Result)
    ensures result == Retrieved(lists, settings, topK)
  {
    var fused := Fuse(lists);
    var floor := Floor(fused, settings);
    var survivors, missed, below := Gate(fused, floor, settings);
    var kept := CollapseSections(survivors);
    var near: seq<Candidate> := [];
    if kept == [] {
      near := CollapseSections(missed);
      near := Take(near, settings.reviewMax);
    }
    var k := if topK != None && topK.value != 0 then topK.value else settings.topK;
    result := Result(Take(kept, k), |fused|, below, near);
  }
}
