/** Pages make no difference to the blocks, and the blocks hold all the text. */
module ParsingProperties {
  import opened Common
  import opened Blocks
  import opened Parsing

  // ------------------------------------------------------------------ pages

  function Unpaged(b: Block): Block {
    b.(page := None)
  }

  /** The same, page numbers aside. */
  predicate Alike(s: State, t: State) {
    && s.path == t.path && s.current == t.current && s.kind == t.kind && |s.blocks| == |t.blocks|
    && forall i :: 0 <= i < |s.blocks| ==> Unpaged(s.blocks[i]) == Unpaged(t.blocks[i])
  }

  lemma FlushedAlike(mode: Mode, levelOf: Heuristic, s: State, t: State)
    requires Alike(s, t)
    ensures Alike(Flushed(mode, levelOf, s), Flushed(mode, levelOf, t))
  {
  }

  lemma HeadedAlike(s: State, t: State, level: nat, title: string)
    requires Alike(s, t)
    ensures Alike(Headed(s, level, title), Headed(t, level, title))
  {
  }

  lemma FedAlike(mode: Mode, levelOf: Heuristic, s: State, t: State, line: Line)
    requires Alike(s, t)
    ensures Alike(Fed(mode, levelOf, s, line), Fed(mode, levelOf, t, line))
  {
    FlushedAlike(mode, levelOf, s, t);
    if line.Words? && mode.Markdown? && line.heading.Some? {
      HeadedAlike(Flushed(mode, levelOf, s), Flushed(mode, levelOf, t), line.heading.value.level, line.heading.value.title);
    }
  }

  lemma {:induction false} FedAllAlike(mode: Mode, levelOf: Heuristic, s: State, t: State, lines: seq<Line>)
    requires Alike(s, t)
    ensures Alike(FedAll(mode, levelOf, s, lines), FedAll(mode, levelOf, t, lines))
  {
    if lines != [] {
      var n := |lines| - 1;
      FedAllAlike(mode, levelOf, s, t, lines[..n]);
      FedAlike(mode, levelOf, FedAll(mode, levelOf, s, lines[..n]), FedAll(mode, levelOf, t, lines[..n]), lines[n]);
    }
  }

  lemma FedOneMore(mode: Mode, levelOf: Heuristic, s: State, lines: seq<Line>, line: Line)
    ensures FedAll(mode, levelOf, s, lines + [line]) == Fed(mode, levelOf, FedAll(mode, levelOf, s, lines), line)
  {
    assert (lines + [line])[..|lines|] == lines;
  }

  lemma {:induction false} FedAllUnion(mode: Mode, levelOf: Heuristic, s: State, a: seq<Line>, b: seq<Line>)
    ensures FedAll(mode, levelOf, s, a + b) == FedAll(mode, levelOf, FedAll(mode, levelOf, s, a), b)
  {
    if b == [] {
      assert a + b == a;
    } else {
      var init, last := b[..|b| - 1], b[|b| - 1];
      FedAllUnion(mode, levelOf, s, a, init);
      assert b == init + [last] && a + b == a + init + [last];
      FedOneMore(mode, levelOf, s, a + init, last);
      FedOneMore(mode, levelOf, FedAll(mode, levelOf, s, a), init, last);
    }
  }

  lemma FedFirst(mode: Mode, levelOf: Heuristic, s: State, line: Line, more: seq<Line>)
    ensures FedAll(mode, levelOf, s, [line] + more) == FedAll(mode, levelOf, Fed(mode, levelOf, s, line), more)
  {
    FedOneMore(mode, levelOf, s, [], line);
    assert [] + [line] == [line];
    FedAllUnion(mode, levelOf, s, [line], more);
  }

  /** The pages as one text, a blank line between them. */
  function Joined(pages: seq<seq<Line>>): seq<Line> {
    if pages == [] then []
    else if |pages| == 1 then pages[0]
    else Joined(pages[..|pages| - 1]) + [Blank] + pages[|pages| - 1]
  }

  lemma OnePageMore(mode: Mode, levelOf: Heuristic, s: State, lines: seq<Line>, more: seq<Line>, page: Option<nat>)
    ensures AfterFeed(mode, levelOf, s, lines + [Blank] + more, page)
      == AfterFeed(mode, levelOf, AfterFeed(mode, levelOf, s, lines, page), more, page)
  {
    var start := s.(page := page);
    FedAllUnion(mode, levelOf, start, lines + [Blank], more);
    assert (lines + [Blank])[..|lines|] == lines;
    PageIsKept(mode, levelOf, start, lines);
  }

  lemma {:induction false} PageIsKept(mode: Mode, levelOf: Heuristic, s: State, lines: seq<Line>)
    ensures FedAll(mode, levelOf, s, lines).page == s.page
  {
    if lines != [] {
      PageIsKept(mode, levelOf, s, lines[..|lines| - 1]);
    }
  }

  /** Feeding any number of pages gives the blocks of feeding them once, joined by blank lines,
      page numbers aside. */
  lemma {:induction false} PagesAreOneText(mode: Mode, levelOf: Heuristic, pages: seq<seq<Line>>, page: Option<nat>)
    ensures Alike(FedPages(mode, levelOf, pages), AfterFeed(mode, levelOf, START, Joined(pages), page))
  {
    if pages != [] {
      var n := |pages| - 1;
      var before := FedPages(mode, levelOf, pages[..n]);
      if n == 0 {
        assert before == START;
        FedAllAlike(mode, levelOf, START.(page := Some(1)), START.(page := page), pages[0]);
        FlushedAlike(mode, levelOf, FedAll(mode, levelOf, START.(page := Some(1)), pages[0]),
          FedAll(mode, levelOf, START.(page := page), pages[0]));
      } else {
        PagesAreOneText(mode, levelOf, pages[..n], page);
        var once := AfterFeed(mode, levelOf, START, Joined(pages[..n]), page);
        OnePageMore(mode, levelOf, START, Joined(pages[..n]), pages[n], page);
        FedAllAlike(mode, levelOf, before.(page := Some(n + 1)), once.(page := page), pages[n]);
        FlushedAlike(mode, levelOf, FedAll(mode, levelOf, before.(page := Some(n + 1)), pages[n]),
          FedAll(mode, levelOf, once.(page := page), pages[n]));
      }
    }
  }

  // ------------------------------------------------------------------ text

  function BlockTexts(blocks: seq<Block>): (texts: seq<string>)
    ensures |texts| == |blocks| && forall i :: 0 <= i < |blocks| ==> texts[i] == blocks[i].text
  {
    seq(|blocks|, i requires 0 <= i < |blocks| => blocks[i].text)
  }

  function LineText(mode: Mode, line: Line): seq<string> {
    match line
    case Blank => []
    case Words(text, _, heading) => if mode.Markdown? && heading.Some? then [heading.value.title] else [text]
  }

  function LineTexts(mode: Mode, lines: seq<Line>): seq<string> {
    if lines == [] then [] else LineTexts(mode, lines[..|lines| - 1]) + LineText(mode, lines[|lines| - 1])
  }

  function AllLines(pages: seq<seq<Line>>): seq<Line> {
    if pages == [] then [] else AllLines(pages[..|pages| - 1]) + pages[|pages| - 1]
  }

  /** Lines that are not blank have text. */
  predicate Stripped(lines: seq<Line>) {
    forall i :: 0 <= i < |lines| && lines[i].Words? ==> lines[i].text != ""
  }

  predicate NoneEmpty(parts: seq<string>) {
    forall i :: 0 <= i < |parts| ==> parts[i] != ""
  }

  /** The texts so far, those of the open block last. */
  function TextSoFar(s: State): seq<string> {
    BlockTexts(s.blocks) + s.current
  }

  lemma JoinNested(a: seq<string>, b: seq<string>)
    requires b != []
    ensures Join(' ', a + [Join(' ', b)]) == Join(' ', a + b)
  {
    if a == [] {
      assert a + b == b && a + [Join(' ', b)] == [Join(' ', b)];
    } else {
      JoinUnion(' ', a, b);
      JoinUnion(' ', a, [Join(' ', b)]);
    }
  }

  lemma {:induction false} SomeText(parts: seq<string>)
    requires parts != [] && NoneEmpty(parts)
    ensures Join(' ', parts) != ""
  {
    if |parts| > 1 {
      var init, last := Join(' ', parts[..|parts| - 1]), parts[|parts| - 1];
      assert |init + [' '] + last| == |init| + 1 + |last|;
    }
  }

  /** The same text, and some or none at all in both. */
  predicate SameText(a: seq<string>, b: seq<string>) {
    Join(' ', a) == Join(' ', b) && (a == [] <==> b == [])
  }

  lemma FlushKeepsText(mode: Mode, levelOf: Heuristic, s: State)
    requires NoneEmpty(s.current)
    ensures var t := Flushed(mode, levelOf, s); SameText(TextSoFar(t), TextSoFar(s)) && t.current == []
  {
    var t := Flushed(mode, levelOf, s);
    if s.current != [] {
      SomeText(s.current);
      JoinNested(BlockTexts(s.blocks), s.current);
      assert TextSoFar(t) == BlockTexts(s.blocks) + [Join(' ', s.current)];
    } else {
      assert TextSoFar(t) == TextSoFar(s);
    }
  }

  lemma MoreText(a: seq<string>, b: seq<string>, more: seq<string>)
    requires SameText(a, b)
    ensures SameText(a + more, b + more)
  {
    if more == [] {
      assert a + more == a && b + more == b;
    } else if a != [] {
      JoinUnion(' ', a, more);
      JoinUnion(' ', b, more);
    }
  }

  /** The builder as a line finds it: flushed, unless the line continues the open block. */
  function Before(mode: Mode, levelOf: Heuristic, s: State, line: Line): State {
    if line.Blank? || (mode.Markdown? && line.heading.Some?) || line.item then Flushed(mode, levelOf, s) else s
  }

  lemma HeadedAddsItsTitle(s: State, level: nat, title: string)
    requires s.current == []
    ensures TextSoFar(Headed(s, level, title)) == TextSoFar(s) + [title]
  {
    var t := Headed(s, level, title);
    assert BlockTexts(t.blocks) == BlockTexts(s.blocks) + [title];
  }

  lemma OpenAddsItsLine(s: State, kind: Kind, text: string)
    ensures TextSoFar(s.(kind := kind, current := s.current + [text])) == TextSoFar(s) + [text]
  {
    assert BlockTexts(s.blocks) + (s.current + [text]) == BlockTexts(s.blocks) + s.current + [text];
  }

  lemma FedAddsItsText(mode: Mode, levelOf: Heuristic, s: State, line: Line)
    requires NoneEmpty(s.current) && (line.Words? ==> line.text != "")
    ensures var t := Fed(mode, levelOf, s, line);
      NoneEmpty(t.current) && TextSoFar(t) == TextSoFar(Before(mode, levelOf, s, line)) + LineText(mode, line)
  {
    var flushed := Flushed(mode, levelOf, s);
    FlushKeepsText(mode, levelOf, s);
    if line.Blank? {
      assert TextSoFar(flushed) + [] == TextSoFar(flushed);
    } else if mode.Markdown? && line.heading.Some? {
      HeadedAddsItsTitle(flushed, line.heading.value.level, line.heading.value.title);
    } else if line.item {
      OpenAddsItsLine(flushed, Item, line.text);
      assert flushed.current + [line.text] == [line.text];
    } else {
      OpenAddsItsLine(s, if s.current == [] then Paragraph else s.kind, line.text);
    }
  }

  lemma SameTextTransitive(a: seq<string>, b: seq<string>, c: seq<string>)
    requires SameText(a, b) && SameText(b, c)
    ensures SameText(a, c)
  {
  }

  lemma FedKeepsText(mode: Mode, levelOf: Heuristic, s: State, line: Line, texts: seq<string>)
    requires NoneEmpty(s.current) && SameText(TextSoFar(s), texts) && (line.Words? ==> line.text != "")
    ensures var t := Fed(mode, levelOf, s, line);
      NoneEmpty(t.current) && SameText(TextSoFar(t), texts + LineText(mode, line))
  {
    var base := TextSoFar(Before(mode, levelOf, s, line));
    FlushKeepsText(mode, levelOf, s);
    FedAddsItsText(mode, levelOf, s, line);
    SameTextTransitive(base, TextSoFar(s), texts);
    MoreText(base, texts, LineText(mode, line));
  }

  /** The builder holds this text, and no empty line. */
  predicate Holds(s: State, texts: seq<string>) {
    NoneEmpty(s.current) && SameText(TextSoFar(s), texts)
  }

  lemma LineTextsStep(mode: Mode, texts: seq<string>, lines: seq<Line>)
    requires lines != []
    ensures texts + LineTexts(mode, lines)
      == texts + LineTexts(mode, lines[..|lines| - 1]) + LineText(mode, lines[|lines| - 1])
  {
    assert LineTexts(mode, lines) == LineTexts(mode, lines[..|lines| - 1]) + LineText(mode, lines[|lines| - 1]);
  }

  lemma {:induction false} FedAllKeepsText(
      mode: Mode, levelOf: Heuristic, s: State, lines: seq<Line>, texts: seq<string>, t: State)
    requires Holds(s, texts) && Stripped(lines) && t == FedAll(mode, levelOf, s, lines)
    ensures Holds(t, texts + LineTexts(mode, lines))
  {
    if lines == [] {
      assert texts + [] == texts;
    } else {
      var n := |lines| - 1;
      var before := FedAll(mode, levelOf, s, lines[..n]);
      FedAllKeepsText(mode, levelOf, s, lines[..n], texts, before);
      FedKeepsText(mode, levelOf, before, lines[n], texts + LineTexts(mode, lines[..n]));
      LineTextsStep(mode, texts, lines);
    }
  }

  lemma {:induction false} LineTextsUnion(mode: Mode, a: seq<Line>, b: seq<Line>)
    ensures LineTexts(mode, a + b) == LineTexts(mode, a) + LineTexts(mode, b)
  {
    if b == [] {
      assert a + b == a;
    } else {
      var init, last := b[..|b| - 1], b[|b| - 1];
      LineTextsUnion(mode, a, init);
      assert (a + b)[..|a + b| - 1] == a + init && (a + b)[|a + b| - 1] == last;
      LineTextsStep(mode, [], a + b);
      LineTextsStep(mode, LineTexts(mode, a), b);
    }
  }

  /** The blocks of a document hold all its text, in order: joined, the block texts are the
      joined texts of the lines, of a marked heading its title. */
  lemma {:induction false} NoTextIsLost(mode: Mode, levelOf: Heuristic, pages: seq<seq<Line>>)
    requires forall i :: 0 <= i < |pages| ==> Stripped(pages[i])
    ensures var s := FedPages(mode, levelOf, pages);
      s.current == [] && SameText(BlockTexts(s.blocks), LineTexts(mode, AllLines(pages)))
  {
    var s := FedPages(mode, levelOf, pages);
    if pages != [] {
      var n := |pages| - 1;
      NoTextIsLost(mode, levelOf, pages[..n]);
      var before := FedPages(mode, levelOf, pages[..n]).(page := Some(n + 1));
      assert TextSoFar(before) == BlockTexts(before.blocks);
      var texts := LineTexts(mode, AllLines(pages[..n]));
      FedAllKeepsText(mode, levelOf, before, pages[n], texts, FedAll(mode, levelOf, before, pages[n]));
      FlushKeepsText(mode, levelOf, FedAll(mode, levelOf, before, pages[n]));
      LineTextsUnion(mode, AllLines(pages[..n]), pages[n]);
      assert TextSoFar(s) == BlockTexts(s.blocks);
    }
  }
}
