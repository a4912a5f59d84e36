/**
  The blocks of a document in terms of its lines alone: the builder of `knowledge/parsing.py`,
  line by line, comes to the same as cutting each page into its longest runs of lines.
 */
module DocumentStructure {
  import opened Common
  import opened Blocks
  import opened Parsing
  import opened ParsingProperties

  // ------------------------------------------------------------------ from lines alone

  /** A block but for its heading path. */
  datatype Piece = Piece(text: string, kind: Kind, page: Option<nat>, level: nat)

  predicate IsMarked(mode: Mode, line: Line) {
    mode.Markdown? && line.Words? && line.heading.Some?
  }

  /** A line that goes on with the paragraph or item before it. */
  predicate GoesOn(mode: Mode, line: Line) {
    line.Words? && !line.item && !IsMarked(mode, line)
  }

  /** How many of the first lines go on. */
  function RunLength(mode: Mode, lines: seq<Line>): (n: nat)
    ensures n <= |lines| && forall i :: 0 <= i < n ==> GoesOn(mode, lines[i])
    ensures n < |lines| ==> !GoesOn(mode, lines[n])
  {
    if lines == [] || !GoesOn(mode, lines[0]) then 0 else 1 + RunLength(mode, lines[1..])
  }

  function TextsOf(lines: seq<Line>): seq<string>
    requires forall i :: 0 <= i < |lines| ==> lines[i].Words?
  {
    if lines == [] then [] else [lines[0].text] + TextsOf(lines[1..])
  }

  /** A run of lines: a heading if the mode is layout and a single line looks like one. */
  function RunPiece(mode: Mode, levelOf: Heuristic, run: seq<string>, kind: Kind, page: Option<nat>): seq<Piece> {
    var text := Join(' ', run);
    if text == "" then []
    else if mode.Layout? && |run| == 1 && levelOf(text) != 0 then [Piece(text, Heading, page, levelOf(text))]
    else [Piece(text, kind, page, 0)]
  }

  /** A page: a marked line is a heading of its own level and title; any other line that is not
      blank starts a run, which takes in all the lines that go on. */
  function PagePieces(mode: Mode, levelOf: Heuristic, lines: seq<Line>, page: Option<nat>): seq<Piece>
    decreases |lines|
  {
    if lines == [] then []
    else if lines[0].Blank? then PagePieces(mode, levelOf, lines[1..], page)
    else if IsMarked(mode, lines[0]) then
      [Piece(lines[0].heading.value.title, Heading, page, lines[0].heading.value.level)]
        + PagePieces(mode, levelOf, lines[1..], page)
    else
      var n := RunLength(mode, lines[1..]);
      RunPiece(mode, levelOf, [lines[0].text] + TextsOf(lines[1..][..n]), if lines[0].item then Item else Paragraph, page)
        + PagePieces(mode, levelOf, lines[1..][n..], page)
  }

  function DocumentPieces(mode: Mode, levelOf: Heuristic, pages: seq<seq<Line>>): seq<Piece> {
    if pages == [] then []
    else
      var n := |pages| - 1;
      DocumentPieces(mode, levelOf, pages[..n]) + PagePieces(mode, levelOf, pages[n], Some(n + 1))
  }

  /** The headings among the pieces, each with its own level. */
  function HeadingsOf(pieces: seq<Piece>): seq<Mark> {
    if pieces == [] then []
    else
      var p := pieces[|pieces| - 1];
      HeadingsOf(pieces[..|pieces| - 1]) + (if p.kind.Heading? then [Mark(p.level, p.text)] else [])
  }

  /** The headings that are open at piece i, itself included. */
  function OpenAt(pieces: seq<Piece>, i: nat): seq<Mark>
    requires i < |pieces|
  {
    Open(HeadingsOf(pieces[..i + 1]))
  }

  // ------------------------------------------------------------------ from the builder

  function Bare(b: Block): Piece {
    Piece(b.text, b.kind, b.page, b.level)
  }

  function Bares(blocks: seq<Block>): (pieces: seq<Piece>)
    ensures |pieces| == |blocks| && forall i :: 0 <= i < |blocks| ==> pieces[i] == Bare(blocks[i])
  {
    if blocks == [] then [] else Bares(blocks[..|blocks| - 1]) + [Bare(blocks[|blocks| - 1])]
  }

  lemma {:induction false} MarksAreHeadings(blocks: seq<Block>)
    ensures Marks(blocks) == HeadingsOf(Bares(blocks))
  {
    if blocks != [] {
      MarksAreHeadings(blocks[..|blocks| - 1]);
      assert Bares(blocks)[..|blocks| - 1] == Bares(blocks[..|blocks| - 1]);
    }
  }

  /** What the builder makes of its open run and the lines ahead. */
  function Ahead(mode: Mode, levelOf: Heuristic, s: State, lines: seq<Line>): seq<Piece> {
    if s.current == [] then PagePieces(mode, levelOf, lines, s.page)
    else
      var n := RunLength(mode, lines);
      RunPiece(mode, levelOf, s.current + TextsOf(lines[..n]), s.kind, s.page) + PagePieces(mode, levelOf, lines[n..], s.page)
  }

  lemma BaresMore(blocks: seq<Block>, b: Block)
    ensures Bares(blocks + [b]) == Bares(blocks) + [Bare(b)]
  {
    assert (blocks + [b])[..|blocks|] == blocks;
  }

  lemma HeadedBares(s: State, level: nat, title: string)
    ensures Bares(Headed(s, level, title).blocks) == Bares(s.blocks) + [Piece(title, Heading, s.page, level)]
  {
    var t := Headed(s, level, title);
    BaresMore(s.blocks, t.blocks[|s.blocks|]);
  }

  /** Flushing files the open run. */
  lemma FlushedBares(mode: Mode, levelOf: Heuristic, s: State)
    ensures var t := Flushed(mode, levelOf, s);
      && t.current == [] && t.page == s.page
      && Bares(t.blocks) == Bares(s.blocks) + RunPiece(mode, levelOf, s.current, s.kind, s.page)
  {
    var text := Join(' ', s.current);
    if text == "" {
    } else if mode.Layout? && |s.current| == 1 && levelOf(text) != 0 {
      HeadedBares(s, levelOf(text), text);
    } else {
      BaresMore(s.blocks, Block(text, s.kind, s.page, Titles(s.path), 0));
    }
  }

  lemma Regroup<T>(a: seq<T>, b: seq<T>, c: seq<T>)
    ensures a + b + c == a + (b + c)
  {
  }

  lemma FirstText(lines: seq<Line>, n: nat)
    requires n < |lines| && forall i :: 0 <= i <= n ==> lines[i].Words?
    ensures TextsOf(lines[..n + 1]) == [lines[0].text] + TextsOf(lines[1..][..n])
  {
    assert lines[..n + 1][1..] == lines[1..][..n];
  }

  /** A line that goes on with the open run. */
  lemma GoingOn(mode: Mode, levelOf: Heuristic, s: State, lines: seq<Line>)
    requires lines != [] && GoesOn(mode, lines[0]) && s.current != []
    ensures var t := Fed(mode, levelOf, s, lines[0]);
      t.blocks == s.blocks && Ahead(mode, levelOf, t, lines[1..]) == Ahead(mode, levelOf, s, lines)
  {
    var n := RunLength(mode, lines[1..]);
    assert RunLength(mode, lines) == n + 1;
    FirstText(lines, n);
    Regroup(s.current, [lines[0].text], TextsOf(lines[1..][..n]));
    assert lines[1..][n..] == lines[n + 1..];
    assert Fed(mode, levelOf, s, lines[0]) == s.(current := s.current + [lines[0].text]);
  }

  /** The first line of a run. */
  lemma RunStarts(mode: Mode, levelOf: Heuristic, s: State, lines: seq<Line>)
    requires lines != [] && lines[0].Words? && !IsMarked(mode, lines[0]) && s.current == []
    ensures var t := Fed(mode, levelOf, s, lines[0]);
      Bares(t.blocks) == Bares(s.blocks) && Ahead(mode, levelOf, t, lines[1..]) == Ahead(mode, levelOf, s, lines)
  {
    FlushedBares(mode, levelOf, s);
    assert RunPiece(mode, levelOf, [], s.kind, s.page) == [];
    assert Bares(s.blocks) + [] == Bares(s.blocks);
    assert [] + [lines[0].text] == [lines[0].text];
  }

  /** A line that ends the open run comes to flushing first. */
  lemma EndsRun(mode: Mode, levelOf: Heuristic, s: State, lines: seq<Line>)
    requires lines != [] && !GoesOn(mode, lines[0]) && s.current != []
    ensures var f := Flushed(mode, levelOf, s);
      && Fed(mode, levelOf, s, lines[0]) == Fed(mode, levelOf, f, lines[0])
      && Ahead(mode, levelOf, s, lines) == RunPiece(mode, levelOf, s.current, s.kind, s.page) + Ahead(mode, levelOf, f, lines)
  {
    FlushedBares(mode, levelOf, s);
    FlushedTwice(mode, levelOf, s);
    assert lines[..0] == [] && lines[0..] == lines && s.current + [] == s.current;
  }

  lemma FlushedTwice(mode: Mode, levelOf: Heuristic, s: State)
    ensures Flushed(mode, levelOf, Flushed(mode, levelOf, s)) == Flushed(mode, levelOf, s)
  {
  }

  /** A line between runs. */
  lemma BetweenRuns(mode: Mode, levelOf: Heuristic, s: State, lines: seq<Line>)
    requires lines != [] && s.current == []
    ensures var t := Fed(mode, levelOf, s, lines[0]);
      Bares(t.blocks) + Ahead(mode, levelOf, t, lines[1..]) == Bares(s.blocks) + Ahead(mode, levelOf, s, lines)
  {
    var line := lines[0];
    FlushedBares(mode, levelOf, s);
    assert RunPiece(mode, levelOf, [], s.kind, s.page) == [] && Bares(s.blocks) + [] == Bares(s.blocks);
    if line.Words? && !IsMarked(mode, line) {
      RunStarts(mode, levelOf, s, lines);
    } else if line.Words? {
      var f := Flushed(mode, levelOf, s);
      HeadedBares(f, line.heading.value.level, line.heading.value.title);
      var piece := Piece(line.heading.value.title, Heading, s.page, line.heading.value.level);
      var later := PagePieces(mode, levelOf, lines[1..], s.page);
      Regroup(Bares(s.blocks), [piece], later);
    }
  }

  /** A line that ends the open run. */
  lemma AfterRun(mode: Mode, levelOf: Heuristic, s: State, lines: seq<Line>)
    requires lines != [] && !GoesOn(mode, lines[0]) && s.current != []
    ensures var t := Fed(mode, levelOf, s, lines[0]);
      Bares(t.blocks) + Ahead(mode, levelOf, t, lines[1..]) == Bares(s.blocks) + Ahead(mode, levelOf, s, lines)
  {
    var f := Flushed(mode, levelOf, s);
    EndsRun(mode, levelOf, s, lines);
    FlushedBares(mode, levelOf, s);
    BetweenRuns(mode, levelOf, f, lines);
    Regroup(Bares(s.blocks), RunPiece(mode, levelOf, s.current, s.kind, s.page), Ahead(mode, levelOf, f, lines));
  }

  /** One line fed: what is filed and what is ahead stay the same in all. */
  lemma OneLineFed(mode: Mode, levelOf: Heuristic, s: State, lines: seq<Line>)
    requires lines != []
    ensures var t := Fed(mode, levelOf, s, lines[0]);
      Bares(t.blocks) + Ahead(mode, levelOf, t, lines[1..]) == Bares(s.blocks) + Ahead(mode, levelOf, s, lines)
  {
    if s.current == [] {
      BetweenRuns(mode, levelOf, s, lines);
    } else if GoesOn(mode, lines[0]) {
      GoingOn(mode, levelOf, s, lines);
    } else {
      AfterRun(mode, levelOf, s, lines);
    }
  }

  lemma {:induction false} LinesFed(mode: Mode, levelOf: Heuristic, s: State, lines: seq<Line>)
    ensures Bares(Flushed(mode, levelOf, FedAll(mode, levelOf, s, lines)).blocks)
      == Bares(s.blocks) + Ahead(mode, levelOf, s, lines)
    decreases |lines|
  {
    if lines == [] {
      FlushedBares(mode, levelOf, s);
      NothingAhead(mode, levelOf, s);
    } else {
      FedFirst(mode, levelOf, s, lines[0], lines[1..]);
      assert [lines[0]] + lines[1..] == lines;
      LinesFed(mode, levelOf, Fed(mode, levelOf, s, lines[0]), lines[1..]);
      OneLineFed(mode, levelOf, s, lines);
    }
  }

  lemma NothingAhead(mode: Mode, levelOf: Heuristic, s: State)
    ensures Ahead(mode, levelOf, s, []) == RunPiece(mode, levelOf, s.current, s.kind, s.page)
  {
    assert s.current + [] == s.current;
    var run := RunPiece(mode, levelOf, s.current, s.kind, s.page);
    assert run + [] == run;
  }

  lemma {:induction false} PagesFed(mode: Mode, levelOf: Heuristic, pages: seq<seq<Line>>)
    ensures var s := FedPages(mode, levelOf, pages);
      s.current == [] && Bares(s.blocks) == DocumentPieces(mode, levelOf, pages)
  {
    if pages != [] {
      var n := |pages| - 1;
      PagesFed(mode, levelOf, pages[..n]);
      var before := FedPages(mode, levelOf, pages[..n]).(page := Some(n + 1));
      LinesFed(mode, levelOf, before, pages[n]);
      FlushedBares(mode, levelOf, FedAll(mode, levelOf, before, pages[n]));
    }
  }

  /** The block is piece i, under the titles of the headings open there, of levels that strictly
      increase. */
  predicate IsPiece(block: Block, pieces: seq<Piece>, i: nat)
    requires i < |pieces|
  {
    var p := pieces[i];
    block == Block(p.text, p.kind, p.page, Titles(OpenAt(pieces, i)), p.level) && Nested(OpenAt(pieces, i))
  }

  lemma {:induction false} BlockIsPiece(blocks: seq<Block>, i: nat)
    requires i < |blocks| && PathIsRight(blocks, i)
    ensures IsPiece(blocks[i], Bares(blocks), i)
  {
    MarksAreHeadings(blocks[..i + 1]);
    assert Bares(blocks[..i + 1]) == Bares(blocks)[..i + 1];
  }

  /** For every document the blocks are the pieces of its lines, in order, each with the titles of
      the headings open there. */
  lemma {:induction false} BlocksFollowTheLines(mode: Mode, levelOf: Heuristic, pages: seq<seq<Line>>)
    ensures var blocks, pieces := FedPages(mode, levelOf, pages).blocks, DocumentPieces(mode, levelOf, pages);
      |blocks| == |pieces| && forall i :: 0 <= i < |pieces| ==> IsPiece(blocks[i], pieces, i)
  {
    var blocks, pieces := FedPages(mode, levelOf, pages).blocks, DocumentPieces(mode, levelOf, pages);
    PagesFed(mode, levelOf, pages);
    HeadingPathsAreRight(mode, levelOf, pages);
    forall i | 0 <= i < |pieces| ensures IsPiece(blocks[i], pieces, i) {
      assert PathIsRight(blocks, i);
      BlockIsPiece(blocks, i);
    }
  }
}
