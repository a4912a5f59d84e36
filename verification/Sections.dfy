/** Sections and their chunks: `chunk_document` of `knowledge/chunking.py`. */
module Sections {
  import opened Common
  import opened Blocks
  import opened Chunking
  import opened Grouping
  import opened Packing

  /** Where a section is: its heading path without the title, its first and last page, and its
      first and last paragraph number.  The program writes this out as text. */
  datatype Locator = Locator(path: seq<string>, pages: Option<(nat, Option<nat>)>, first: nat, last: nat)

  /** `header` is the title and heading path that are put before the text to be embedded. */
  datatype Chunk = Chunk(
    index: nat, parentIndex: nat, text: string, header: seq<string>, context: string, locator: Locator,
    section: Option<string>, headings: seq<string>, pageStart: Option<nat>, tokenCount: nat)

  function PathWithout(title: string, headings: seq<string>): seq<string> {
    if headings == [] then []
    else (if headings[0] != title then [headings[0]] else []) + PathWithout(title, headings[1..])
  }

  function LocatorFor(title: string, group: Group): Locator
    requires group != []
  {
    var first, last := group[0], group[|group| - 1];
    Locator(PathWithout(title, first.headings),
            if first.page.Some? then Some((first.page.value, last.page)) else None,
            first.ordinal, last.ordinal)
  }

  function Body(group: Group): string {
    Join('\n', Texts(group))
  }

  /** A chunk in the making: its units and the number of its section. */
  datatype Child = Child(parent: nat, group: Group)

  function MakeChunk(title: string, index: nat, child: Child, parent: Group): Chunk
    requires child.group != [] && parent != []
  {
    var first := child.group[0];
    Chunk(index, child.parent, Body(child.group), [title] + PathWithout(title, first.headings), Body(parent),
          LocatorFor(title, parent), if first.headings == [] then None else Some(first.headings[|first.headings| - 1]),
          first.headings, first.page, Tokens(Body(child.group)))
  }

  function ChildrenOf(parent: nat, groups: seq<Group>): (children: seq<Child>)
    ensures |children| == |groups|
    ensures forall i :: 0 <= i < |groups| ==> children[i] == Child(parent, groups[i])
  {
    seq(|groups|, i requires 0 <= i < |groups| => Child(parent, groups[i]))
  }

  /** The children of the sections from number `from` on. */
  function Children(sections: seq<Group>, from: nat, target: nat): seq<Child> {
    if sections == [] then []
    else ChildrenOf(from, Packed(sections[0], target)) + Children(sections[1..], from + 1, target)
  }

  function GroupsOf(children: seq<Child>): (groups: seq<Group>)
    ensures |groups| == |children|
    ensures forall i :: 0 <= i < |children| ==> groups[i] == children[i].group
  {
    seq(|children|, i requires 0 <= i < |children| => children[i].group)
  }

  predicate IsPart(part: Group, whole: Group) {
    exists i, j :: 0 <= i < j <= |whole| && part == whole[i..j]
  }

  /** A child is a non-empty group of units of its own section. */
  predicate IsChild(child: Child, sections: seq<Group>, from: nat, target: nat) {
    && from <= child.parent < from + |sections|
    && child.group != [] && IsGroup(child.group, target)
    && IsPart(child.group, sections[child.parent - from])
  }

  /** Child k is of the same section as the one before it or of the next. */
  predicate Continues(children: seq<Child>, k: nat)
    requires 0 < k < |children|
  {
    children[k - 1].parent <= children[k].parent <= children[k - 1].parent + 1
  }

  /** The section numbers run from `from` through n sections, in order and without gaps. */
  predicate Numbered(children: seq<Child>, from: nat, n: nat) {
    && (n == 0 <==> children == [])
    && (n > 0 ==> children[0].parent == from && children[|children| - 1].parent == from + n - 1)
    && (forall k :: 0 < k < |children| ==> Continues(children, k))
  }

  predicate AreChildren(children: seq<Child>, sections: seq<Group>, from: nat, target: nat) {
    && (forall k :: 0 <= k < |children| ==> IsChild(children[k], sections, from, target))
    && Numbered(children, from, |sections|)
  }

  lemma {:induction false} PartsOfFlat(groups: seq<Group>, k: nat) returns (i: nat, j: nat)
    requires k < |groups| && forall n :: 0 <= n < |groups| ==> groups[n] != []
    ensures i < j <= |Flatten(groups)| && groups[k] == Flatten(groups)[i..j]
  {
    var n := |groups[0]|;
    if k == 0 {
      i, j := 0, n;
    } else {
      i, j := PartsOfFlat(groups[1..], k - 1);
      i, j := i + n, j + n;
    }
  }

  lemma FirstSectionChildren(section: Group, from: nat, target: nat)
    requires section != []
    ensures AreChildren(ChildrenOf(from, Packed(section, target)), [section], from, target)
    ensures Flatten(GroupsOf(ChildrenOf(from, Packed(section, target)))) == section
  {
    var groups := Packed(section, target);
    PackingIsTheFewest(section, target, groups);
    assert groups != [];
    assert GroupsOf(ChildrenOf(from, groups)) == groups;
    forall k | 0 <= k < |groups| ensures IsChild(Child(from, groups[k]), [section], from, target) {
      var i, j := PartsOfFlat(groups, k);
      assert Rules(target)(groups[k]);
    }
  }

  lemma NumberedJoin(a: seq<Child>, b: seq<Child>, from: nat, n: nat)
    requires Numbered(a, from, 1) && Numbered(b, from + 1, n)
    ensures Numbered(a + b, from, n + 1)
  {
    forall k | 0 < k < |a + b| ensures Continues(a + b, k) {
      if k < |a| {
        assert Continues(a, k);
      } else if k > |a| {
        assert Continues(b, k - |a|);
      }
    }
  }

  lemma FirstIsChild(child: Child, sections: seq<Group>, from: nat, target: nat)
    requires sections != [] && IsChild(child, sections[..1], from, target)
    ensures IsChild(child, sections, from, target)
  {
    assert sections[..1][0] == sections[0];
  }

  lemma LaterIsChild(child: Child, sections: seq<Group>, from: nat, target: nat)
    requires sections != [] && IsChild(child, sections[1..], from + 1, target)
    ensures IsChild(child, sections, from, target)
  {
    assert sections[1..][child.parent - (from + 1)] == sections[child.parent - from];
  }

  lemma {:induction false} ChildrenJoin(a: seq<Child>, b: seq<Child>, sections: seq<Group>, from: nat, target: nat)
    requires sections != []
    requires AreChildren(a, sections[..1], from, target) && AreChildren(b, sections[1..], from + 1, target)
    ensures AreChildren(a + b, sections, from, target)
  {
    NumberedJoin(a, b, from, |sections| - 1);
    forall k | 0 <= k < |a + b| ensures IsChild((a + b)[k], sections, from, target) {
      if k < |a| {
        FirstIsChild(a[k], sections, from, target);
      } else {
        LaterIsChild(b[k - |a|], sections, from, target);
      }
    }
  }

  lemma {:induction false} FlattenUnion(a: seq<Group>, b: seq<Group>)
    ensures Flatten(a + b) == Flatten(a) + Flatten(b)
  {
    if a == [] {
      assert a + b == b;
    } else {
      assert (a + b)[1..] == a[1..] + b;
      FlattenUnion(a[1..], b);
    }
  }

  lemma {:induction false} ChildrenAreChildren(sections: seq<Group>, from: nat, target: nat)
    requires forall k :: 0 <= k < |sections| ==> sections[k] != []
    ensures AreChildren(Children(sections, from, target), sections, from, target)
    decreases |sections|
  {
    if sections != [] {
      FirstSectionChildren(sections[0], from, target);
      ChildrenAreChildren(sections[1..], from + 1, target);
      assert sections[..1] == [sections[0]];
      ChildrenJoin(ChildrenOf(from, Packed(sections[0], target)), Children(sections[1..], from + 1, target),
        sections, from, target);
    }
  }

  lemma GroupsOfUnion(a: seq<Child>, b: seq<Child>)
    ensures Flatten(GroupsOf(a + b)) == Flatten(GroupsOf(a)) + Flatten(GroupsOf(b))
  {
    assert GroupsOf(a + b) == GroupsOf(a) + GroupsOf(b);
    FlattenUnion(GroupsOf(a), GroupsOf(b));
  }

  lemma {:induction false} ChildrenFlatten(sections: seq<Group>, from: nat, target: nat)
    requires forall k :: 0 <= k < |sections| ==> sections[k] != []
    ensures Flatten(GroupsOf(Children(sections, from, target))) == Flatten(sections)
    decreases |sections|
  {
    if sections == [] {
      assert GroupsOf([]) == [];
    } else {
      FirstSectionChildren(sections[0], from, target);
      ChildrenFlatten(sections[1..], from + 1, target);
      GroupsOfUnion(ChildrenOf(from, Packed(sections[0], target)), Children(sections[1..], from + 1, target));
    }
  }

  lemma {:induction false} ChildrenCover(sections: seq<Group>, from: nat, target: nat)
    requires forall k :: 0 <= k < |sections| ==> sections[k] != []
    ensures AreChildren(Children(sections, from, target), sections, from, target)
    ensures Flatten(GroupsOf(Children(sections, from, target))) == Flatten(sections)
  {
    ChildrenAreChildren(sections, from, target);
    ChildrenFlatten(sections, from, target);
  }

  // ------------------------------------------------------------------ the document

  function ChunksFrom(title: string, children: seq<Child>, sections: seq<Group>): (chunks: seq<Chunk>)
    requires forall k :: 0 <= k < |sections| ==> sections[k] != []
    requires forall k :: 0 <= k < |children| ==> children[k].group != [] && children[k].parent < |sections|
    ensures |chunks| == |children|
    ensures forall k :: 0 <= k < |children| ==> chunks[k] == MakeChunk(title, k, children[k], sections[children[k].parent])
  {
    seq(|children|, k requires 0 <= k < |children| => MakeChunk(title, k, children[k], sections[children[k].parent]))
  }

  /** A chunk's text is somewhere in the context the model receives. */
  ghost predicate Occurs(text: string, context: string) {
    exists i, j :: 0 <= i <= j <= |context| && context[i..j] == text
  }

  lemma JoinEnds(sep: char, a: seq<string>, b: seq<string>) returns (before: string)
    requires b != []
    ensures Join(sep, a + b) == before + Join(sep, b)
  {
    if a == [] {
      assert a + b == b;
      before := "";
    } else {
      JoinUnion(sep, a, b);
      before := Join(sep, a) + [sep];
    }
  }

  lemma JoinStarts(sep: char, a: seq<string>, b: seq<string>) returns (after: string)
    requires a != []
    ensures Join(sep, a + b) == Join(sep, a) + after
  {
    if b == [] {
      assert a + b == a;
      after := "";
    } else {
      JoinUnion(sep, a, b);
      after := [sep] + Join(sep, b);
      assert Join(sep, a) + [sep] + Join(sep, b) == Join(sep, a) + after;
    }
  }

  lemma OccursWithin(before: string, text: string, after: string, context: string)
    requires context == before + text + after
    ensures Occurs(text, context)
  {
    assert context[|before|..|before| + |text|] == text;
  }

  lemma TextsOfPart(whole: Group, i: nat, j: nat) returns (a: seq<string>, c: seq<string>)
    requires i < j <= |whole|
    ensures Texts(whole) == a + Texts(whole[i..j]) + c
  {
    a, c := Texts(whole[..i]), Texts(whole[j..]);
    assert Texts(whole) == a + Texts(whole[i..j]) + c;
  }

  lemma PartOccurs(part: Group, whole: Group)
    requires IsPart(part, whole)
    ensures Occurs(Body(part), Body(whole))
  {
    var i, j :| 0 <= i < j <= |whole| && part == whole[i..j];
    var a, c := TextsOfPart(whole, i, j);
    var before := JoinEnds('\n', a, Texts(part));
    var after := JoinStarts('\n', a + Texts(part), c);
    OccursWithin(before, Body(part), after, Body(whole));
  }

  lemma BodyTokens(group: Group)
    ensures Tokens(Body(group)) == Weight(group)
  {
    JoinLength('\n', Texts(group));
    JoinLength(' ', Texts(group));
  }

  function DocumentChunks(title: string, units: seq<Unit>, cfg: Config): seq<Chunk> {
    var sections := Packed(units, cfg.max);
    PackingIsTheFewest(units, cfg.max, sections);
    ChildrenCover(sections, 0, cfg.target);
    ChunksFrom(title, Children(sections, 0, cfg.target), sections)
  }

  /** What a chunk made from a group of units is. */
  ghost predicate IsChunkOf(chunk: Chunk, index: nat, group: Group, cfg: Config) {
    && group != [] && SameHeadings(group)
    && chunk.index == index && chunk.text == Body(group) && chunk.headings == group[0].headings
    && Occurs(chunk.text, chunk.context)
    && (chunk.tokenCount > cfg.target ==> |group| == 1)
  }

  lemma MadeChunk(title: string, index: nat, child: Child, sections: seq<Group>, cfg: Config)
    requires IsChild(child, sections, 0, cfg.target)
    ensures IsChunkOf(MakeChunk(title, index, child, sections[child.parent]), index, child.group, cfg)
  {
    PartOccurs(child.group, sections[child.parent]);
    BodyTokens(child.group);
  }

  /** The chunks of a document: their units in order are the document's; they are numbered from
      0; each text occurs in its context; and only a chunk of a single unit exceeds the
      target. */
  lemma ChunksCoverTheDocument(title: string, units: seq<Unit>, cfg: Config) returns (groups: seq<Group>)
    ensures var chunks := DocumentChunks(title, units, cfg);
      && |groups| == |chunks| && Flatten(groups) == units
      && (forall i :: 0 <= i < |chunks| ==> IsChunkOf(chunks[i], i, groups[i], cfg))
  {
    var sections := Packed(units, cfg.max);
    PackingIsTheFewest(units, cfg.max, sections);
    ChildrenCover(sections, 0, cfg.target);
    var children := Children(sections, 0, cfg.target);
    groups := GroupsOf(children);
    forall i | 0 <= i < |children|
      ensures IsChunkOf(MakeChunk(title, i, children[i], sections[children[i].parent]), i, children[i].group, cfg)
    {
      MadeChunk(title, i, children[i], sections, cfg);
    }
  }

  predicate SectionContinues(chunks: seq<Chunk>, i: nat)
    requires 0 < i < |chunks|
  {
    chunks[i - 1].parentIndex <= chunks[i].parentIndex <= chunks[i - 1].parentIndex + 1
  }

  lemma {:induction false} ChunksKeepNumbers(title: string, children: seq<Child>, sections: seq<Group>, n: nat)
    requires forall k :: 0 <= k < |sections| ==> sections[k] != []
    requires forall k :: 0 <= k < |children| ==> children[k].group != [] && children[k].parent < |sections|
    requires Numbered(children, 0, n)
    ensures var chunks := ChunksFrom(title, children, sections);
      (chunks != [] ==> chunks[0].parentIndex == 0) && forall i :: 0 < i < |chunks| ==> SectionContinues(chunks, i)
  {
    var chunks := ChunksFrom(title, children, sections);
    forall i | 0 < i < |chunks| ensures SectionContinues(chunks, i) {
      assert Continues(children, i);
    }
  }

  predicate SameSection(a: Chunk, b: Chunk) {
    a.context == b.context && a.locator == b.locator
  }

  lemma SiblingsShareSection(title: string, children: seq<Child>, sections: seq<Group>, i: nat, j: nat)
    requires forall k :: 0 <= k < |sections| ==> sections[k] != []
    requires forall k :: 0 <= k < |children| ==> children[k].group != [] && children[k].parent < |sections|
    requires i < |children| && j < |children|
    ensures var chunks := ChunksFrom(title, children, sections);
      chunks[i].parentIndex == chunks[j].parentIndex ==> SameSection(chunks[i], chunks[j])
  {
  }

  /** Sections are numbered from 0 in order and without gaps, and the chunks of a section share
      its text and its locator. */
  lemma {:induction false} SectionsAreContiguous(title: string, units: seq<Unit>, cfg: Config)
    ensures var chunks := DocumentChunks(title, units, cfg);
      && (chunks != [] ==> chunks[0].parentIndex == 0)
      && (forall i :: 0 < i < |chunks| ==> SectionContinues(chunks, i))
      && (forall i, j :: 0 <= i < |chunks| && 0 <= j < |chunks| && chunks[i].parentIndex == chunks[j].parentIndex ==>
            SameSection(chunks[i], chunks[j]))
  {
    var sections := Packed(units, cfg.max);
    PackingIsTheFewest(units, cfg.max, sections);
    ChildrenCover(sections, 0, cfg.target);
    var children := Children(sections, 0, cfg.target);
    var chunks := DocumentChunks(title, units, cfg);
    ChunksKeepNumbers(title, children, sections, |sections|);
    forall i, j | 0 <= i < |chunks| && 0 <= j < |chunks| && chunks[i].parentIndex == chunks[j].parentIndex
      ensures SameSection(chunks[i], chunks[j])
    {
      SiblingsShareSection(title, children, sections, i, j);
    }
  }

  /** The chunks of one section, numbered on from `index`. */
  method ChunkSection(title: string, index: nat, number: nat, section: Group, target: nat) returns (chunks: seq<Chunk>)
    requires section != []
    ensures var groups := Packed(section, target);
      && |chunks| == |groups|
      && forall c :: 0 <= c < |groups| ==>
           groups[c] != [] && chunks[c] == MakeChunk(title, index + c, Child(number, groups[c]), section)
  {
    var groups := PackUnits(section, target);
    PackingIsTheFewest(section, target, groups);
    chunks := [];
    for c := 0 to |groups|
      invariant |chunks| == c
      invariant forall k :: 0 <= k < c ==> chunks[k] == MakeChunk(title, index + k, Child(number, groups[k]), section)
    {
      chunks := chunks + [MakeChunk(title, index + c, Child(number, groups[c]), section)];
    }
  }

  predicate MadeUpTo(title: string, chunks: seq<Chunk>, children: seq<Child>, sections: seq<Group>)
    requires forall k :: 0 <= k < |sections| ==> sections[k] != []
    requires forall k :: 0 <= k < |children| ==> children[k].group != [] && children[k].parent < |sections|
  {
    && |chunks| <= |children|
    && forall k :: 0 <= k < |chunks| ==> chunks[k] == MakeChunk(title, k, children[k], sections[children[k].parent])
  }

  /** The chunks of all sections, section by section. */
  method ChunkSections(title: string, sections: seq<Group>, target: nat, ghost children: seq<Child>)
    returns (chunks: seq<Chunk>)
    requires forall k :: 0 <= k < |sections| ==> sections[k] != []
    requires forall k :: 0 <= k < |children| ==> children[k].group != [] && children[k].parent < |sections|
    requires children == Children(sections, 0, target)
    ensures chunks == ChunksFrom(title, children, sections)
  {
    chunks := [];
    for p := 0 to |sections|
      invariant MadeThrough(title, chunks, children, sections, p, target)
    {
      var more := ChunkSection(title, |chunks|, p, sections[p], target);
      MadeThroughNext(title, chunks, more, children, sections, p, target, Packed(sections[p], target));
      chunks := chunks + more;
    }
    MadeAll(title, chunks, children, sections, target);
  }

  /** The chunks of the first p sections have been made. */
  predicate MadeThrough(
      title: string, chunks: seq<Chunk>, children: seq<Child>, sections: seq<Group>, p: nat, target: nat)
    requires forall k :: 0 <= k < |sections| ==> sections[k] != []
    requires forall k :: 0 <= k < |children| ==> children[k].group != [] && children[k].parent < |sections|
  {
    && p <= |sections| && MadeUpTo(title, chunks, children, sections)
    && children[|chunks|..] == Children(sections[p..], p, target)
  }

  lemma MadeThroughNext(
      title: string, chunks: seq<Chunk>, more: seq<Chunk>, children: seq<Child>, sections: seq<Group>, p: nat, target: nat,
      groups: seq<Group>)
    requires forall k :: 0 <= k < |sections| ==> sections[k] != []
    requires forall k :: 0 <= k < |children| ==> children[k].group != [] && children[k].parent < |sections|
    requires MadeThrough(title, chunks, children, sections, p, target) && p < |sections|
    requires groups == Packed(sections[p], target) && |more| == |groups|
    requires forall c :: 0 <= c < |groups| ==>
      groups[c] != [] && more[c] == MakeChunk(title, |chunks| + c, Child(p, groups[c]), sections[p])
    ensures MadeThrough(title, chunks + more, children, sections, p + 1, target)
  {
    SectionStep(children, |chunks|, sections, p, target);
    MadeMore(title, chunks, more, children, sections, p, groups);
  }

  method ChunkDocument(title: string, blocks: seq<Block>, cfg: Config, sentences: Splitter) returns (chunks: seq<Chunk>)
    ensures chunks == DocumentChunks(title, UnitsFrom(blocks, 0, cfg, sentences), cfg)
  {
    var units := SplitUnits(blocks, cfg, sentences);
    var sections := PackUnits(units, cfg.max);
    PackingIsTheFewest(units, cfg.max, sections);
    ChildrenCover(sections, 0, cfg.target);
    chunks := ChunkSections(title, sections, cfg.target, Children(sections, 0, cfg.target));
  }

  lemma MadeMore(
      title: string, chunks: seq<Chunk>, more: seq<Chunk>, children: seq<Child>, sections: seq<Group>, p: nat, groups: seq<Group>)
    requires forall k :: 0 <= k < |sections| ==> sections[k] != []
    requires forall k :: 0 <= k < |children| ==> children[k].group != [] && children[k].parent < |sections|
    requires MadeUpTo(title, chunks, children, sections) && p < |sections| && |more| == |groups|
    requires |chunks| + |groups| <= |children|
    requires forall c :: 0 <= c < |groups| ==> groups[c] != [] && children[|chunks| + c] == Child(p, groups[c])
    requires forall c :: 0 <= c < |groups| ==> more[c] == MakeChunk(title, |chunks| + c, Child(p, groups[c]), sections[p])
    ensures MadeUpTo(title, chunks + more, children, sections)
  {
    var all := chunks + more;
    forall k | 0 <= k < |all| ensures all[k] == MakeChunk(title, k, children[k], sections[children[k].parent]) {
      if k >= |chunks| {
        var c := k - |chunks|;
        assert children[|chunks| + c] == Child(p, groups[c]) && all[k] == more[c];
      }
    }
  }

  lemma MadeAll(title: string, chunks: seq<Chunk>, children: seq<Child>, sections: seq<Group>, target: nat)
    requires forall k :: 0 <= k < |sections| ==> sections[k] != []
    requires forall k :: 0 <= k < |children| ==> children[k].group != [] && children[k].parent < |sections|
    requires MadeThrough(title, chunks, children, sections, |sections|, target)
    ensures chunks == ChunksFrom(title, children, sections)
  {
    assert |children[|chunks|..]| == 0;
  }

  /** The next section's children come next among all children. */
  lemma SectionStep(children: seq<Child>, done: nat, sections: seq<Group>, p: nat, target: nat)
    requires done <= |children| && p < |sections| && children[done..] == Children(sections[p..], p, target)
    ensures var groups := Packed(sections[p], target);
      && done + |groups| <= |children|
      && (forall c :: 0 <= c < |groups| ==> children[done + c] == Child(p, groups[c]))
      && children[done + |groups|..] == Children(sections[p + 1..], p + 1, target)
  {
    assert sections[p..][1..] == sections[p + 1..];
    var groups := Packed(sections[p], target);
    var later := Children(sections[p + 1..], p + 1, target);
    assert children[done..] == ChildrenOf(p, groups) + later;
    forall c | 0 <= c < |groups| ensures children[done + c] == Child(p, groups[c]) {
      assert children[done + c] == children[done..][c];
    }
    assert children[done..][|groups|..] == later;
  }

  // ------------------------------------------------------------------ paragraph numbers

  predicate Rising(units: seq<Unit>, above: nat) {
    && (forall i :: 0 <= i < |units| ==> units[i].ordinal > above)
    && (forall i, j :: 0 <= i < j < |units| ==> units[i].ordinal <= units[j].ordinal)
  }

  lemma RisingUnion(a: seq<Unit>, b: seq<Unit>, above: nat)
    requires Rising(b, above + 1) && forall i :: 0 <= i < |a| ==> a[i].ordinal == above + 1
    ensures Rising(a + b, above)
  {
  }

  lemma {:induction false} OrdinalsRise(blocks: seq<Block>, ordinal: nat, cfg: Config, sentences: Splitter)
    ensures Rising(UnitsFrom(blocks, ordinal, cfg, sentences), ordinal)
  {
    if blocks != [] {
      if blocks[0].kind.Heading? {
        OrdinalsRise(blocks[1..], ordinal, cfg, sentences);
      } else {
        OrdinalsRise(blocks[1..], ordinal + 1, cfg, sentences);
        RisingUnion(UnitsOfBlock(blocks[0], ordinal + 1, cfg, sentences),
          UnitsFrom(blocks[1..], ordinal + 1, cfg, sentences), ordinal);
      }
    }
  }

  lemma RangeHolds(title: string, units: seq<Unit>, section: Group, i: nat, j: nat, u: Unit)
    requires Rising(units, 0) && i < j <= |units| && section == units[i..j] && u in section
    ensures LocatorFor(title, section).first <= u.ordinal <= LocatorFor(title, section).last
  {
    var n :| 0 <= n < |section| && section[n] == u;
    assert units[i] == section[0] && units[i + n] == u && units[j - 1] == section[|section| - 1];
  }

  /** A section's locator names a range of paragraphs that holds every unit of the section. */
  lemma LocatorsHoldTheirUnits(
      title: string, blocks: seq<Block>, cfg: Config, sentences: Splitter, k: nat, u: Unit)
    requires k < |Packed(UnitsFrom(blocks, 0, cfg, sentences), cfg.max)|
    requires u in Packed(UnitsFrom(blocks, 0, cfg, sentences), cfg.max)[k]
    ensures var at := LocatorFor(title, Packed(UnitsFrom(blocks, 0, cfg, sentences), cfg.max)[k]);
      at.first <= u.ordinal <= at.last
  {
    var units := UnitsFrom(blocks, 0, cfg, sentences);
    var sections := Packed(units, cfg.max);
    OrdinalsRise(blocks, 0, cfg, sentences);
    PackingIsTheFewest(units, cfg.max, sections);
    var i, j := PartsOfFlat(sections, k);
    RangeHolds(title, units, sections[k], i, j, u);
  }
}
