/** What every unit and every chunk of a document holds, told from its blocks. */
module ChunkContents {
  import opened Common
  import opened Blocks
  import opened Chunking
  import opened Grouping
  import opened Packing
  import opened Sections

  /** The parts with a separator between them. */
  function Between(sep: char, parts: seq<string>): string {
    if parts == [] then ""
    else if |parts| == 1 then parts[0]
    else parts[0] + [sep] + Between(sep, parts[1..])
  }

  lemma {:induction false} JoinIsBetween(sep: char, parts: seq<string>)
    ensures Join(sep, parts) == Between(sep, parts)
  {
    if |parts| > 1 {
      JoinIsBetween(sep, parts[1..]);
      assert parts == [parts[0]] + parts[1..];
      JoinUnion(sep, [parts[0]], parts[1..]);
    }
  }

  /** About four characters a token, rounded up. */
  predicate Within(text: string, limit: nat) {
    (|text| + 3) / 4 <= limit
  }

  // ------------------------------------------------------------------ an oversized paragraph

  predicate FitsTogether(piece: seq<string>, target: nat) {
    Within(Between(' ', piece), target)
  }

  /** Over the target only as a single sentence or, after the first piece, as the overlap and one
      more. */
  predicate IsPiece(pieces: seq<seq<string>>, i: nat, target: nat)
    requires i < |pieces|
  {
    FitsTogether(pieces[i], target) || |pieces[i]| <= (if i == 0 then 1 else 2)
  }

  /** The piece could not have taken the next new sentence. */
  predicate IsFullPiece(pieces: seq<seq<string>>, i: nat, target: nat)
    requires i < |pieces| - 1
  {
    |pieces[i + 1]| >= 2 && !FitsTogether(pieces[i] + [pieces[i + 1][1]], target)
  }

  predicate ArePieces(pieces: seq<seq<string>>, target: nat) {
    && (forall i :: 0 <= i < |pieces| ==> IsPiece(pieces, i, target))
    && (forall i :: 0 <= i < |pieces| - 1 ==> IsFullPiece(pieces, i, target))
  }

  /** The pieces as they follow a first one. */
  predicate AreNextPieces(pieces: seq<seq<string>>, target: nat) {
    && (forall i :: 0 <= i < |pieces| ==> FitsTogether(pieces[i], target) || |pieces[i]| <= 2)
    && (forall i :: 0 <= i < |pieces| - 1 ==> IsFullPiece(pieces, i, target))
  }

  lemma FullPiecesOnMore(piece: seq<string>, later: seq<seq<string>>, target: nat)
    requires AreNextPieces(later, target)
    requires later != [] ==> |later[0]| >= 2 && !FitsTogether(piece + [later[0][1]], target)
    ensures var pieces := [piece] + later;
      && (forall i :: 1 <= i < |pieces| ==> FitsTogether(pieces[i], target) || |pieces[i]| <= 2)
      && (forall i :: 0 <= i < |pieces| - 1 ==> IsFullPiece(pieces, i, target))
  {
    var pieces := [piece] + later;
    forall i | 0 <= i < |pieces| - 1 ensures IsFullPiece(pieces, i, target) {
      if i > 0 {
        assert IsFullPiece(later, i - 1, target);
      }
    }
  }

  /** Cutting goes on from an open piece: the first piece begins with it. */
  predicate GoesOn(pieces: seq<seq<string>>, piece: seq<string>, target: nat, most: nat) {
    && pieces != [] && piece <= pieces[0]
    && (FitsTogether(pieces[0], target) || |pieces[0]| <= most)
    && (forall i :: 1 <= i < |pieces| ==> FitsTogether(pieces[i], target) || |pieces[i]| <= 2)
    && (forall i :: 0 <= i < |pieces| - 1 ==> IsFullPiece(pieces, i, target))
  }

  lemma ClosedPiece(piece: seq<string>, rest: seq<string>, later: seq<seq<string>>, target: nat, most: nat)
    requires piece != [] && rest != [] && (FitsTogether(piece, target) || |piece| <= most)
    requires Overflows(piece, rest[0], target)
    requires GoesOn(later, [piece[|piece| - 1], rest[0]], target, 2)
    ensures GoesOn([piece] + later, piece, target, most)
  {
    JoinIsBetween(' ', piece + [rest[0]]);
    FullPiecesOnMore(piece, later, target);
  }

  lemma {:induction false} CuttingGoesOn(piece: seq<string>, rest: seq<string>, target: nat, most: nat)
    requires piece != [] && (FitsTogether(piece, target) || |piece| <= most)
    ensures GoesOn(PiecesFrom(piece, rest, target), piece, target, most)
    decreases |rest|
  {
    if rest != [] {
      JoinIsBetween(' ', piece + [rest[0]]);
      if Overflows(piece, rest[0], target) {
        var next := [piece[|piece| - 1], rest[0]];
        CuttingGoesOn(next, rest[1..], target, 2);
        ClosedPiece(piece, rest, PiecesFrom(next, rest[1..], target), target, most);
      } else {
        CuttingGoesOn(piece + [rest[0]], rest[1..], target, most);
      }
    }
  }

  /** An oversized paragraph is cut as late as the target allows. */
  lemma CutsAreLate(sentences: seq<string>, target: nat)
    ensures ArePieces(PiecesFrom([], sentences, target), target)
  {
    if sentences != [] {
      var first := [sentences[0]];
      assert [] + first == first;
      assert PiecesFrom([], sentences, target) == PiecesFrom(first, sentences[1..], target);
      CuttingGoesOn(first, sentences[1..], target, 1);
    }
  }

  // ------------------------------------------------------------------ units

  /** The blocks that are no headings. */
  function Passages(blocks: seq<Block>): seq<Block> {
    if blocks == [] then []
    else if blocks[0].kind == Heading then Passages(blocks[1..])
    else [blocks[0]] + Passages(blocks[1..])
  }

  /** The paragraph's sentences, in pieces that each start with the last sentence of the one before
      and end as late as the target allows. */
  predicate IsCut(pieces: seq<seq<string>>, sentences: seq<string>, target: nat) {
    Overlapping(pieces) && Rebuilt(pieces) == sentences && ArePieces(pieces, target)
  }

  /** The units of one paragraph or item: itself, or its pieces if it is oversized. */
  ghost predicate ComeFrom(units: seq<Unit>, block: Block, ordinal: nat, cfg: Config, sentences: Splitter) {
    && (forall u :: u in units ==> u.ordinal == ordinal && u.page == block.page && u.headings == block.headings)
    && if Within(block.text, cfg.split) then |units| == 1 && units[0].text == block.text
       else exists pieces :: IsCut(pieces, sentences(block.text), cfg.target) && AreTexts(pieces, units)
  }

  predicate AreTexts(pieces: seq<seq<string>>, units: seq<Unit>) {
    |pieces| == |units| && forall i :: 0 <= i < |units| ==> units[i].text == Between(' ', pieces[i])
  }

  lemma BlockUnits(block: Block, ordinal: nat, cfg: Config, sentences: Splitter)
    ensures ComeFrom(UnitsOfBlock(block, ordinal, cfg, sentences), block, ordinal, cfg, sentences)
  {
    var units := UnitsOfBlock(block, ordinal, cfg, sentences);
    if !Within(block.text, cfg.split) {
      var pieces := PiecesFrom([], sentences(block.text), cfg.target);
      SplitIsReversible(sentences(block.text), cfg.target);
      CutsAreLate(sentences(block.text), cfg.target);
      forall i | 0 <= i < |units| ensures units[i].text == Between(' ', pieces[i]) {
        JoinIsBetween(' ', pieces[i]);
      }
      assert AreTexts(pieces, units);
    }
  }

  /** Each passage has its units, numbered on from `ordinal`. */
  lemma {:induction false} UnitsInFull(blocks: seq<Block>, ordinal: nat, cfg: Config, sentences: Splitter)
    returns (groups: seq<Group>)
    ensures Flatten(groups) == UnitsFrom(blocks, ordinal, cfg, sentences)
    ensures |groups| == |Passages(blocks)|
    ensures forall i :: 0 <= i < |groups| ==>
      ComeFrom(groups[i], Passages(blocks)[i], ordinal + 1 + i, cfg, sentences)
  {
    if blocks == [] {
      groups := [];
    } else if blocks[0].kind == Heading {
      groups := UnitsInFull(blocks[1..], ordinal, cfg, sentences);
    } else {
      var later := UnitsInFull(blocks[1..], ordinal + 1, cfg, sentences);
      var first := UnitsOfBlock(blocks[0], ordinal + 1, cfg, sentences);
      BlockUnits(blocks[0], ordinal + 1, cfg, sentences);
      groups := [first] + later;
      forall i | 0 <= i < |groups|
        ensures ComeFrom(groups[i], Passages(blocks)[i], ordinal + 1 + i, cfg, sentences)
      {
        if i > 0 {
          assert ComeFrom(later[i - 1], Passages(blocks[1..])[i - 1], ordinal + 1 + 1 + (i - 1), cfg, sentences);
        }
      }
    }
  }

  // ------------------------------------------------------------------ what is packed together

  /** The characters of the texts with one between each two. */
  function Chars(group: Group): nat {
    if group == [] then 0
    else if |group| == 1 then |group[0].text|
    else |group[0].text| + 1 + Chars(group[1..])
  }

  /** One heading path, and within the limit unless a single unit. */
  predicate Together(group: Group, limit: nat) {
    && (forall i :: 0 <= i < |group| ==> group[i].headings == group[0].headings)
    && (|group| <= 1 || (Chars(group) + 3) / 4 <= limit)
  }

  lemma {:induction false} CharsOfTexts(group: Group, sep: char)
    ensures |Between(sep, Texts(group))| == Chars(group)
  {
    if |group| > 1 {
      assert Texts(group)[1..] == Texts(group[1..]);
      CharsOfTexts(group[1..], sep);
    }
  }

  lemma TogetherIffAllowed(group: Group, limit: nat)
    ensures Together(group, limit) <==> Rules(limit)(group)
  {
    JoinIsBetween(' ', Texts(group));
    CharsOfTexts(group, ' ');
  }

  /** The units in order, in groups of which none could have taken the next unit. */
  predicate Divides(groups: seq<Group>, units: seq<Unit>, limit: nat) {
    && Flatten(groups) == units
    && (forall i :: 0 <= i < |groups| ==> groups[i] != [] && Together(groups[i], limit))
    && (forall i :: 0 <= i < |groups| - 1 && groups[i + 1] != [] ==> !Together(groups[i] + [groups[i + 1][0]], limit))
  }

  /** There is one way to divide units. */
  lemma PackedIffDivides(groups: seq<Group>, units: seq<Unit>, limit: nat)
    ensures groups == Packed(units, limit) <==> Divides(groups, units, limit)
  {
    RulesAreClosed(limit);
    GreedyIffFull(groups, units, Rules(limit));
    forall i | 0 <= i < |groups| ensures Together(groups[i], limit) <==> Rules(limit)(groups[i]) {
      TogetherIffAllowed(groups[i], limit);
    }
    forall i | 0 <= i < |groups| - 1 && groups[i + 1] != []
      ensures Together(groups[i] + [groups[i + 1][0]], limit) <==> Rules(limit)(groups[i] + [groups[i + 1][0]])
    {
      TogetherIffAllowed(groups[i] + [groups[i + 1][0]], limit);
    }
  }

  // ------------------------------------------------------------------ chunks

  /** How many groups come before those of section p. */
  function Before(cuts: seq<seq<Group>>, p: nat): nat
    requires p <= |cuts|
  {
    if p == 0 then 0 else Before(cuts, p - 1) + |cuts[p - 1]|
  }

  function LinesOf(group: Group): string {
    Between('\n', Texts(group))
  }

  lemma {:induction false} PathOfUnion(title: string, a: seq<string>, b: seq<string>)
    ensures PathWithout(title, a + b) == PathWithout(title, a) + PathWithout(title, b)
  {
    if a == [] {
      assert a + b == b;
    } else {
      var first := if a[0] != title then [a[0]] else [];
      assert (a + b)[0] == a[0] && (a + b)[1..] == a[1..] + b;
      PathOfUnion(title, a[1..], b);
      assert PathWithout(title, a + b) == first + (PathWithout(title, a[1..]) + PathWithout(title, b));
    }
  }

  /** The path leaves out a heading that is the title, wherever it is, and no other. */
  lemma PathLeavesOutTheTitle(title: string, before: seq<string>, heading: string, after: seq<string>)
    ensures PathWithout(title, before + [heading] + after) ==
      PathWithout(title, before) + (if heading == title then [] else [heading]) + PathWithout(title, after)
  {
    PathOfUnion(title, before + [heading], after);
    PathOfUnion(title, before, [heading]);
    assert PathWithout(title, [heading]) == (if heading != title then [heading] else []) + PathWithout(title, []);
  }

  /** Where the section is: the heading path, the pages of its first and last unit, and their
      numbers. */
  predicate Locates(at: Locator, title: string, section: Group)
    requires section != []
  {
    var first, last := section[0], section[|section| - 1];
    && at.path == PathWithout(title, first.headings) && at.first == first.ordinal && at.last == last.ordinal
    && (first.page.None? ==> at.pages == None)
    && (first.page.Some? ==> at.pages == Some((first.page.value, last.page)))
  }

  /** The chunk is made of the group, in the context of the section. */
  predicate Holds(chunk: Chunk, title: string, index: nat, parent: nat, section: Group, group: Group)
    requires section != [] && group != []
  {
    && chunk.index == index && chunk.parentIndex == parent
    && chunk.text == LinesOf(group) && chunk.context == LinesOf(section)
    && chunk.tokenCount == (|chunk.text| + 3) / 4
    && chunk.header == [title] + PathWithout(title, group[0].headings)
    && chunk.headings == group[0].headings && chunk.pageStart == group[0].page
    && chunk.section == (if chunk.headings == [] then None else Some(chunk.headings[|chunk.headings| - 1]))
    && Locates(chunk.locator, title, section)
  }

  lemma MadeChunkHolds(title: string, index: nat, child: Child, section: Group)
    requires child.group != [] && section != []
    ensures Holds(MakeChunk(title, index, child, section), title, index, child.parent, section, child.group)
  {
    JoinIsBetween('\n', Texts(child.group));
    JoinIsBetween('\n', Texts(section));
  }

  function CutsOf(sections: seq<Group>, target: nat): (cuts: seq<seq<Group>>)
    ensures |cuts| == |sections| && forall p :: 0 <= p < |sections| ==> cuts[p] == Packed(sections[p], target)
  {
    seq(|sections|, p requires 0 <= p < |sections| => Packed(sections[p], target))
  }

  lemma {:induction false} ChildrenBefore(sections: seq<Group>, target: nat, p: nat)
    requires p <= |sections|
    ensures var children, cuts := Children(sections, 0, target), CutsOf(sections, target);
      Before(cuts, p) <= |children| && children[Before(cuts, p)..] == Children(sections[p..], p, target)
  {
    var children, cuts := Children(sections, 0, target), CutsOf(sections, target);
    if p == 0 {
      assert sections[0..] == sections && children[0..] == children;
    } else {
      ChildrenBefore(sections, target, p - 1);
      SectionStep(children, Before(cuts, p - 1), sections, p - 1, target);
    }
  }

  lemma NextChild(children: seq<Child>, done: nat, sections: seq<Group>, p: nat, target: nat, groups: seq<Group>, c: nat)
    requires done <= |children| && p < |sections| && children[done..] == Children(sections[p..], p, target)
    requires groups == Packed(sections[p], target) && c < |groups|
    ensures done + c < |children| && children[done + c] == Child(p, groups[c])
  {
    SectionStep(children, done, sections, p, target);
  }

  lemma ChildAt(sections: seq<Group>, cuts: seq<seq<Group>>, target: nat, p: nat, c: nat)
    requires cuts == CutsOf(sections, target) && p < |sections| && c < |cuts[p]|
    ensures Before(cuts, p) + c < |Children(sections, 0, target)|
    ensures Children(sections, 0, target)[Before(cuts, p) + c] == Child(p, cuts[p][c])
  {
    ChildrenBefore(sections, target, p);
    NextChild(Children(sections, 0, target), Before(cuts, p), sections, p, target, cuts[p], c);
  }

  /** Chunk c of section p. */
  predicate IsChunkAt(chunks: seq<Chunk>, title: string, sections: seq<Group>, cuts: seq<seq<Group>>, p: nat, c: nat)
    requires |cuts| == |sections| && p < |sections| && c < |cuts[p]|
  {
    && sections[p] != [] && cuts[p][c] != []
    && Before(cuts, p) + c < |chunks|
    && Holds(chunks[Before(cuts, p) + c], title, Before(cuts, p) + c, p, sections[p], cuts[p][c])
  }

  lemma ChunkFrom(title: string, children: seq<Child>, sections: seq<Group>, at: nat, p: nat, group: Group)
    requires forall k :: 0 <= k < |sections| ==> sections[k] != []
    requires forall k :: 0 <= k < |children| ==> children[k].group != [] && children[k].parent < |sections|
    requires at < |children| && children[at] == Child(p, group)
    ensures p < |sections| && group != []
    ensures Holds(ChunksFrom(title, children, sections)[at], title, at, p, sections[p], group)
  {
    MadeChunkHolds(title, at, children[at], sections[p]);
  }

  lemma ChunkAt(
      title: string, children: seq<Child>, sections: seq<Group>, cuts: seq<seq<Group>>, target: nat, p: nat, c: nat)
    requires forall k :: 0 <= k < |sections| ==> sections[k] != []
    requires forall k :: 0 <= k < |children| ==> children[k].group != [] && children[k].parent < |sections|
    requires children == Children(sections, 0, target) && cuts == CutsOf(sections, target)
    requires p < |sections| && c < |cuts[p]|
    ensures IsChunkAt(ChunksFrom(title, children, sections), title, sections, cuts, p, c)
  {
    ChildAt(sections, cuts, target, p, c);
    ChunkFrom(title, children, sections, Before(cuts, p) + c, p, cuts[p][c]);
  }

  /** All chunks of the sections. */
  ghost predicate AreChunksOf(chunks: seq<Chunk>, title: string, sections: seq<Group>, cuts: seq<seq<Group>>)
    requires |cuts| == |sections|
  {
    && |chunks| == Before(cuts, |cuts|)
    && forall p, c :: 0 <= p < |sections| && 0 <= c < |cuts[p]| ==> IsChunkAt(chunks, title, sections, cuts, p, c)
  }

  lemma ChunksOfSections(title: string, children: seq<Child>, sections: seq<Group>, cuts: seq<seq<Group>>, target: nat)
    requires forall k :: 0 <= k < |sections| ==> sections[k] != []
    requires forall k :: 0 <= k < |children| ==> children[k].group != [] && children[k].parent < |sections|
    requires children == Children(sections, 0, target) && cuts == CutsOf(sections, target)
    ensures AreChunksOf(ChunksFrom(title, children, sections), title, sections, cuts)
  {
    ChildrenBefore(sections, target, |sections|);
    forall p, c | 0 <= p < |sections| && 0 <= c < |cuts[p]|
      ensures IsChunkAt(ChunksFrom(title, children, sections), title, sections, cuts, p, c)
    {
      ChunkAt(title, children, sections, cuts, target, p, c);
    }
  }

  lemma CutsDivide(sections: seq<Group>, target: nat, p: nat)
    requires p < |sections|
    ensures Divides(CutsOf(sections, target)[p], sections[p], target)
  {
    PackedIffDivides(Packed(sections[p], target), sections[p], target);
  }

  /** The chunks of a document in full: its units are divided into sections by the larger limit and
      each section by the smaller, and each part, in order, is one chunk. */
  lemma {:induction false} ChunksInFull(title: string, units: seq<Unit>, cfg: Config)
    returns (sections: seq<Group>, cuts: seq<seq<Group>>)
    ensures Divides(sections, units, cfg.max) && |cuts| == |sections|
    ensures forall p :: 0 <= p < |sections| ==> Divides(cuts[p], sections[p], cfg.target)
    ensures AreChunksOf(DocumentChunks(title, units, cfg), title, sections, cuts)
  {
    sections := Packed(units, cfg.max);
    cuts := CutsOf(sections, cfg.target);
    PackedIffDivides(sections, units, cfg.max);
    forall p | 0 <= p < |sections| ensures Divides(cuts[p], sections[p], cfg.target) {
      CutsDivide(sections, cfg.target, p);
    }
    PackingIsTheFewest(units, cfg.max, sections);
    ChildrenCover(sections, 0, cfg.target);
    ChunksOfSections(title, Children(sections, 0, cfg.target), sections, cuts, cfg.target);
  }
}
