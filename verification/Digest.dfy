/**
  The content digest of `knowledge/ingest.py` against the units it is to tell apart: it hashes
  each block's text and heading path, but neither its kind nor its page.
 */
module Digest {
  import opened Common
  import opened Blocks
  import opened Parsing
  import opened ParsingProperties
  import opened Chunking

  /** What the content digest sees of a block. */
  datatype Hashed = Hashed(text: string, headings: seq<string>)

  function HashedBlocks(blocks: seq<Block>): (hashed: seq<Hashed>)
    ensures |hashed| == |blocks|
    ensures forall i :: 0 <= i < |blocks| ==> hashed[i] == Hashed(blocks[i].text, blocks[i].headings)
  {
    seq(|blocks|, i requires 0 <= i < |blocks| => Hashed(blocks[i].text, blocks[i].headings))
  }

  // ------------------------------------------------------------------ what the units depend on

  /** What chunking sees of a paragraph or list item. */
  datatype Passage = Passage(text: string, page: Option<nat>, headings: seq<string>)

  function PassageOf(b: Block): Passage {
    Passage(b.text, b.page, b.headings)
  }

  /** The passages of a document: its blocks without the headings. */
  function Prose(blocks: seq<Block>): seq<Passage> {
    if blocks == [] then []
    else (if blocks[0].kind.Heading? then [] else [PassageOf(blocks[0])]) + Prose(blocks[1..])
  }

  function AsBlock(p: Passage): Block {
    Block(p.text, Paragraph, p.page, p.headings, 0)
  }

  function UnitsOfProse(prose: seq<Passage>, ordinal: nat, cfg: Config, sentences: Splitter): seq<Unit> {
    if prose == [] then []
    else UnitsOfBlock(AsBlock(prose[0]), ordinal + 1, cfg, sentences) + UnitsOfProse(prose[1..], ordinal + 1, cfg, sentences)
  }

  lemma {:induction false} SamePieces(a: Block, b: Block, ordinal: nat, pieces: seq<seq<string>>)
    requires PassageOf(a) == PassageOf(b)
    ensures UnitsOfPieces(pieces, ordinal, a) == UnitsOfPieces(pieces, ordinal, b)
  {
    assert forall i :: 0 <= i < |pieces| ==> UnitOf(pieces[i], ordinal, a) == UnitOf(pieces[i], ordinal, b);
  }

  lemma SameUnits(a: Block, b: Block, ordinal: nat, cfg: Config, sentences: Splitter)
    requires PassageOf(a) == PassageOf(b)
    ensures UnitsOfBlock(a, ordinal, cfg, sentences) == UnitsOfBlock(b, ordinal, cfg, sentences)
  {
    SamePieces(a, b, ordinal, PiecesFrom([], sentences(a.text), cfg.target));
  }

  lemma {:induction false} UnitsFollowProse(blocks: seq<Block>, ordinal: nat, cfg: Config, sentences: Splitter)
    ensures UnitsFrom(blocks, ordinal, cfg, sentences) == UnitsOfProse(Prose(blocks), ordinal, cfg, sentences)
  {
    if blocks != [] {
      var later := Prose(blocks[1..]);
      if blocks[0].kind.Heading? {
        assert Prose(blocks) == later;
        UnitsFollowProse(blocks[1..], ordinal, cfg, sentences);
      } else {
        assert Prose(blocks)[0] == PassageOf(blocks[0]) && Prose(blocks)[1..] == later;
        UnitsFollowProse(blocks[1..], ordinal + 1, cfg, sentences);
        SameUnits(blocks[0], AsBlock(PassageOf(blocks[0])), ordinal + 1, cfg, sentences);
      }
    }
  }

  /** No passage is long enough to be split. */
  predicate NoneSplit(prose: seq<Passage>, cfg: Config) {
    forall i :: 0 <= i < |prose| ==> Tokens(prose[i].text) <= cfg.split
  }

  lemma {:induction false} UnsplitUnits(prose: seq<Passage>, ordinal: nat, cfg: Config, sentences: Splitter)
    requires NoneSplit(prose, cfg)
    ensures var units := UnitsOfProse(prose, ordinal, cfg, sentences);
      && |units| == |prose|
      && (forall i :: 0 <= i < |prose| ==> Passage(units[i].text, units[i].page, units[i].headings) == prose[i])
  {
    if prose != [] {
      UnsplitUnits(prose[1..], ordinal + 1, cfg, sentences);
      assert forall i :: 0 < i < |prose| ==> prose[i] == prose[1..][i - 1];
    }
  }

  /** Documents of the same passages have the same units, and of documents without a passage to
      split only those do. */
  lemma SameUnitsIffSameProse(a: seq<Block>, b: seq<Block>, cfg: Config, sentences: Splitter)
    ensures Prose(a) == Prose(b) ==> UnitsFrom(a, 0, cfg, sentences) == UnitsFrom(b, 0, cfg, sentences)
    ensures NoneSplit(Prose(a), cfg) && NoneSplit(Prose(b), cfg) ==>
      (UnitsFrom(a, 0, cfg, sentences) == UnitsFrom(b, 0, cfg, sentences) <==> Prose(a) == Prose(b))
  {
    UnitsFollowProse(a, 0, cfg, sentences);
    UnitsFollowProse(b, 0, cfg, sentences);
    if NoneSplit(Prose(a), cfg) && NoneSplit(Prose(b), cfg) {
      UnsplitUnits(Prose(a), 0, cfg, sentences);
      UnsplitUnits(Prose(b), 0, cfg, sentences);
      if UnitsFrom(a, 0, cfg, sentences) == UnitsFrom(b, 0, cfg, sentences) {
        assert forall i :: 0 <= i < |Prose(a)| ==> Prose(a)[i] == Prose(b)[i];
      }
    }
  }

  // ------------------------------------------------------------------ what the digest misses

  lemma AlikeHashAlike(s: State, t: State)
    requires Alike(s, t)
    ensures HashedBlocks(s.blocks) == HashedBlocks(t.blocks)
  {
    forall i | 0 <= i < |s.blocks| ensures HashedBlocks(s.blocks)[i] == HashedBlocks(t.blocks)[i] {
      assert Unpaged(s.blocks[i]) == Unpaged(t.blocks[i]);
    }
  }

  /** However a text is cut into pages between paragraphs, its digest is the same. */
  lemma DigestMissesPages(mode: Mode, levelOf: Heuristic, a: seq<seq<Line>>, b: seq<seq<Line>>)
    requires Joined(a) == Joined(b)
    ensures HashedBlocks(FedPages(mode, levelOf, a).blocks) == HashedBlocks(FedPages(mode, levelOf, b).blocks)
  {
    var once := AfterFeed(mode, levelOf, START, Joined(a), None);
    PagesAreOneText(mode, levelOf, a, None);
    PagesAreOneText(mode, levelOf, b, None);
    AlikeHashAlike(FedPages(mode, levelOf, a), once);
    AlikeHashAlike(FedPages(mode, levelOf, b), once);
  }

  function Plain(text: string): Line {
    Words(text, false, None)
  }

  function HeadingLine(title: string): Line {
    Words("# " + title, false, Some(Mark(1, title)))
  }

  /** A heading, a line of the same words, and a paragraph. */
  function Twice(title: string, second: Line, rest: string): seq<Line> {
    [HeadingLine(title)] + ([second] + ([Blank] + ([Plain(rest)] + [])))
  }

  function HeadingBlock(title: string): Block {
    Block(title, Heading, None, [title], 1)
  }

  function ParagraphUnder(title: string, text: string): Block {
    Block(text, Paragraph, None, [title], 0)
  }

  /** The builder between blocks of one section. */
  function Between(title: string, blocks: seq<Block>): State {
    State(blocks, [Mark(1, title)], [], Paragraph, None)
  }

  lemma TitleFed(levelOf: Heuristic, s: State, title: string)
    requires s == START || s == Between(title, s.blocks)
    ensures Fed(Markdown, levelOf, s, HeadingLine(title)) == Between(title, s.blocks + [HeadingBlock(title)])
  {
    assert s != START ==> s.path[..0] == [];
    assert Popped(s.path, 1) == [] && [] + [Mark(1, title)] == [Mark(1, title)];
    assert Titles([Mark(1, title)]) == [title];
  }

  lemma ParagraphFed(levelOf: Heuristic, title: string, blocks: seq<Block>, text: string)
    requires text != ""
    ensures Flushed(Markdown, levelOf, Fed(Markdown, levelOf, Between(title, blocks), Plain(text)))
      == Between(title, blocks + [ParagraphUnder(title, text)])
  {
    assert [] + [text] == [text] && Join(' ', [text]) == text;
    assert Titles([Mark(1, title)]) == [title];
  }

  lemma TwiceFed(levelOf: Heuristic, title: string, second: Line, rest: string)
    ensures AfterFeed(Markdown, levelOf, START, Twice(title, second, rest), None)
      == (var s := Fed(Markdown, levelOf, Fed(Markdown, levelOf, START, HeadingLine(title)), second);
          Flushed(Markdown, levelOf, Fed(Markdown, levelOf, Flushed(Markdown, levelOf, s), Plain(rest))))
  {
    var s1 := Fed(Markdown, levelOf, START, HeadingLine(title));
    var s2 := Fed(Markdown, levelOf, s1, second);
    FedFirst(Markdown, levelOf, START, HeadingLine(title), [second] + ([Blank] + ([Plain(rest)] + [])));
    FedFirst(Markdown, levelOf, s1, second, [Blank] + ([Plain(rest)] + []));
    FedFirst(Markdown, levelOf, s2, Blank, [Plain(rest)] + []);
    FedFirst(Markdown, levelOf, Flushed(Markdown, levelOf, s2), Plain(rest), []);
  }

  /** What they are parsed into. */
  function TwiceBlocks(title: string, marked: bool, rest: string): seq<Block> {
    [HeadingBlock(title)] + [if marked then HeadingBlock(title) else ParagraphUnder(title, title)]
      + [ParagraphUnder(title, rest)]
  }

  /** The second line, marked as a heading or plain. */
  function SecondLine(title: string, marked: bool): Line {
    if marked then HeadingLine(title) else Plain(title)
  }

  lemma TwiceParsed(levelOf: Heuristic, title: string, marked: bool, rest: string)
    requires title != "" && rest != ""
    ensures AfterFeed(Markdown, levelOf, START, Twice(title, SecondLine(title, marked), rest), None).blocks
      == TwiceBlocks(title, marked, rest)
  {
    var first := [HeadingBlock(title)];
    TwiceFed(levelOf, title, SecondLine(title, marked), rest);
    TitleFed(levelOf, START, title);
    assert [] + first == first;
    if marked {
      TitleFed(levelOf, Between(title, first), title);
      ParagraphFed(levelOf, title, first + first, rest);
    } else {
      ParagraphFed(levelOf, title, first, title);
      ParagraphFed(levelOf, title, first + [ParagraphUnder(title, title)], rest);
    }
  }

  lemma ProseOfUnion(a: seq<Block>, b: seq<Block>)
    ensures Prose(a + b) == Prose(a) + Prose(b)
  {
    if a == [] {
      assert a + b == b;
    } else {
      assert (a + b)[1..] == a[1..] + b;
      ProseOfUnion(a[1..], b);
    }
  }

  lemma ProseOfOne(b: Block)
    ensures Prose([b]) == if b.kind.Heading? then [] else [PassageOf(b)]
  {
    assert [b][1..] == [];
  }

  lemma ProseOfThree(a: Block, b: Block, c: Block)
    ensures Prose([a] + [b] + [c]) == Prose([a]) + Prose([b]) + Prose([c])
  {
    ProseOfUnion([a] + [b], [c]);
    ProseOfUnion([a], [b]);
  }

  lemma CountUnits(blocks: seq<Block>, prose: seq<Passage>, cfg: Config, sentences: Splitter)
    requires prose == Prose(blocks) && NoneSplit(prose, cfg)
    ensures |UnitsFrom(blocks, 0, cfg, sentences)| == |prose|
  {
    UnitsFollowProse(blocks, 0, cfg, sentences);
    UnsplitUnits(prose, 0, cfg, sentences);
  }

  lemma TwiceUnits(title: string, marked: bool, rest: string, cfg: Config, sentences: Splitter)
    requires Tokens(title) <= cfg.split && Tokens(rest) <= cfg.split
    ensures |UnitsFrom(TwiceBlocks(title, marked, rest), 0, cfg, sentences)| == if marked then 1 else 2
  {
    var h, q := HeadingBlock(title), ParagraphUnder(title, rest);
    var second := if marked then h else ParagraphUnder(title, title);
    ProseOfOne(h);
    ProseOfOne(second);
    ProseOfOne(q);
    ProseOfThree(h, second, q);
    CountUnits(TwiceBlocks(title, marked, rest), Prose([h]) + Prose([second]) + Prose([q]), cfg, sentences);
  }

  lemma KindIsNotHashed(title: string, rest: string)
    ensures HashedBlocks(TwiceBlocks(title, true, rest)) == HashedBlocks(TwiceBlocks(title, false, rest))
  {
  }

  /** Marking the line under a heading of the same words as a second heading takes a unit away
      but keeps the digest: the re-index takes the file for unchanged. */
  lemma DigestMissesKinds(levelOf: Heuristic, title: string, rest: string, cfg: Config, sentences: Splitter)
    requires title != "" && rest != "" && Tokens(title) <= cfg.split && Tokens(rest) <= cfg.split
    ensures var before := AfterFeed(Markdown, levelOf, START, Twice(title, Plain(title), rest), None).blocks;
      var after := AfterFeed(Markdown, levelOf, START, Twice(title, HeadingLine(title), rest), None).blocks;
      && HashedBlocks(before) == HashedBlocks(after)
      && |UnitsFrom(before, 0, cfg, sentences)| == 2 && |UnitsFrom(after, 0, cfg, sentences)| == 1
  {
    TwiceParsed(levelOf, title, false, rest);
    TwiceParsed(levelOf, title, true, rest);
    KindIsNotHashed(title, rest);
    TwiceUnits(title, false, rest, cfg, sentences);
    TwiceUnits(title, true, rest, cfg, sentences);
  }

  lemma LineParsed(levelOf: Heuristic, s: State, text: string, page: Option<nat>)
    requires s.current == [] && s.path == [] && s.kind == Paragraph && text != "" && levelOf(text) == 0
    ensures AfterFeed(Layout, levelOf, s, [Plain(text)], page)
      == s.(page := page, blocks := s.blocks + [Block(text, Paragraph, page, [], 0)])
  {
    FedOneMore(Layout, levelOf, s.(page := page), [], Plain(text));
    assert [] + [Plain(text)] == [Plain(text)] && [] + [text] == [text];
    assert Titles([]) == [];
  }

  function OnOnePage(one: string, two: string): seq<seq<Line>> {
    [[Plain(one)] + [Blank] + [Plain(two)]]
  }

  function OnTwoPages(one: string, two: string): seq<seq<Line>> {
    [[Plain(one)], [Plain(two)]]
  }

  /** Two paragraphs, the second on the page given. */
  function Paragraphs(one: string, two: string, page: nat): seq<Block> {
    [Block(one, Paragraph, Some(1), [], 0)] + [Block(two, Paragraph, Some(page), [], 0)]
  }

  lemma OnePageParsed(levelOf: Heuristic, one: string, two: string)
    requires one != "" && two != "" && levelOf(one) == 0 && levelOf(two) == 0
    ensures FedPages(Layout, levelOf, OnOnePage(one, two)).blocks == Paragraphs(one, two, 1)
  {
    assert OnOnePage(one, two)[..0] == [];
    LineParsed(levelOf, START, one, Some(1));
    LineParsed(levelOf, AfterFeed(Layout, levelOf, START, [Plain(one)], Some(1)), two, Some(1));
    OnePageMore(Layout, levelOf, START, [Plain(one)], [Plain(two)], Some(1));
  }

  lemma TwoPagesParsed(levelOf: Heuristic, one: string, two: string)
    requires one != "" && two != "" && levelOf(one) == 0 && levelOf(two) == 0
    ensures FedPages(Layout, levelOf, OnTwoPages(one, two)).blocks == Paragraphs(one, two, 2)
  {
    var pages := OnTwoPages(one, two);
    assert pages[..1] == [[Plain(one)]] && pages[..1][..0] == [];
    assert FedPages(Layout, levelOf, pages[..1]) == AfterFeed(Layout, levelOf, START, [Plain(one)], Some(1));
    LineParsed(levelOf, START, one, Some(1));
    LineParsed(levelOf, FedPages(Layout, levelOf, pages[..1]), two, Some(2));
  }

  lemma ParagraphsProse(one: string, two: string, page: nat)
    ensures Prose(Paragraphs(one, two, page)) == [Passage(one, Some(1), [])] + [Passage(two, Some(page), [])]
  {
    var blocks := Paragraphs(one, two, page);
    assert blocks[1..] == [Block(two, Paragraph, Some(page), [], 0)] && blocks[1..][1..] == [];
    assert Prose(blocks[1..]) == [Passage(two, Some(page), [])] + Prose([]);
  }

  lemma PageMatters(one: string, two: string, cfg: Config, sentences: Splitter)
    requires Tokens(one) <= cfg.split && Tokens(two) <= cfg.split
    ensures UnitsFrom(Paragraphs(one, two, 1), 0, cfg, sentences) != UnitsFrom(Paragraphs(one, two, 2), 0, cfg, sentences)
  {
    ParagraphsProse(one, two, 1);
    ParagraphsProse(one, two, 2);
    var was, now := Prose(Paragraphs(one, two, 1)), Prose(Paragraphs(one, two, 2));
    assert was[1].page == Some(1) && now[1].page == Some(2);
    SameUnitsIffSameProse(Paragraphs(one, two, 1), Paragraphs(one, two, 2), cfg, sentences);
  }

  /** Two paragraphs on one page, and on two: one digest, but unless a paragraph is split the
      units differ, and the index keeps citing the old page. */
  lemma RepaginationIsMissed(levelOf: Heuristic, one: string, two: string, cfg: Config, sentences: Splitter)
    requires one != "" && two != "" && levelOf(one) == 0 && levelOf(two) == 0
    requires Tokens(one) <= cfg.split && Tokens(two) <= cfg.split
    ensures var before := FedPages(Layout, levelOf, OnOnePage(one, two)).blocks;
      var after := FedPages(Layout, levelOf, OnTwoPages(one, two)).blocks;
      && HashedBlocks(before) == HashedBlocks(after)
      && UnitsFrom(before, 0, cfg, sentences) != UnitsFrom(after, 0, cfg, sentences)
  {
    var apart := OnTwoPages(one, two);
    assert apart[..1] == [[Plain(one)]];
    DigestMissesPages(Layout, levelOf, OnOnePage(one, two), apart);
    OnePageParsed(levelOf, one, two);
    TwoPagesParsed(levelOf, one, two);
    PageMatters(one, two, cfg, sentences);
  }
}
