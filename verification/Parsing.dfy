/**
  The block builder of `knowledge/parsing.py`: lines become blocks under a heading path that
  persists across pages.  Lines arrive with the regular expressions already applied: whether the
  line is blank, an item, or a marked heading, and its text stripped.
 */
module Parsing {
  import opened Common
  import opened Blocks

  datatype Mark = Mark(level: nat, title: string)

  datatype Line = Blank | Words(text: string, item: bool, heading: Option<Mark>)

  datatype Mode = Markdown | Layout

  /** The heading heuristic for extracted text: the level of a line, 0 for none. */
  type Heuristic = string -> nat

  datatype State = State(blocks: seq<Block>, path: seq<Mark>, current: seq<string>, kind: Kind, page: Option<nat>)

  const START := State([], [], [], Paragraph, None)

  // ------------------------------------------------------------------ specification

  function Titles(path: seq<Mark>): (titles: seq<string>)
    ensures |titles| == |path| && forall i :: 0 <= i < |path| ==> titles[i] == path[i].title
  {
    seq(|path|, i requires 0 <= i < |path| => path[i].title)
  }

  function Popped(path: seq<Mark>, level: nat): seq<Mark> {
    if path != [] && path[|path| - 1].level >= level then Popped(path[..|path| - 1], level) else path
  }

  function Headed(s: State, level: nat, title: string): State {
    var path := Popped(s.path, level) + [Mark(level, title)];
    s.(path := path, blocks := s.blocks + [Block(title, Heading, s.page, Titles(path), level)])
  }

  function Flushed(mode: Mode, levelOf: Heuristic, s: State): State {
    var text := Join(' ', s.current);
    var flushed :=
      if text == "" then s
      else if mode.Layout? && |s.current| == 1 && levelOf(text) != 0 then Headed(s, levelOf(text), text)
      else s.(blocks := s.blocks + [Block(text, s.kind, s.page, Titles(s.path), 0)]);
    flushed.(current := [])
  }

  function Fed(mode: Mode, levelOf: Heuristic, s: State, line: Line): State {
    match line
    case Blank => Flushed(mode, levelOf, s)
    case Words(text, item, heading) =>
      if mode.Markdown? && heading.Some? then
        Headed(Flushed(mode, levelOf, s), heading.value.level, heading.value.title)
      else if item then Flushed(mode, levelOf, s).(kind := Item, current := [text])
      else s.(kind := if s.current == [] then Paragraph else s.kind, current := s.current + [text])
  }

  function FedAll(mode: Mode, levelOf: Heuristic, s: State, lines: seq<Line>): State {
    if lines == [] then s
    else Fed(mode, levelOf, FedAll(mode, levelOf, s, lines[..|lines| - 1]), lines[|lines| - 1])
  }

  function AfterFeed(mode: Mode, levelOf: Heuristic, s: State, lines: seq<Line>, page: Option<nat>): State {
    Flushed(mode, levelOf, FedAll(mode, levelOf, s.(page := page), lines))
  }

  // ------------------------------------------------------------------ the builder

  class BlockBuilder {
    const mode: Mode
    const levelOf: Heuristic
    var blocks: seq<Block>
    var path: seq<Mark>
    var current: seq<string>
    var kind: Kind
    var page: Option<nat>

    ghost function Now(): State
      reads this
    {
      State(blocks, path, current, kind, page)
    }

    constructor (mode: Mode, levelOf: Heuristic)
      ensures Now() == START && this.mode == mode && this.levelOf == levelOf
    {
      this.mode, this.levelOf := mode, levelOf;
      blocks, path, current, kind, page := [], [], [], Paragraph, None;
    }

    method AddHeading(level: nat, title: string)
      modifies this
      ensures Now() == Headed(old(Now()), level, title)
    {
      while path != [] && path[|path| - 1].level >= level
        invariant Popped(path, level) == Popped(old(path), level)
        invariant Now() == old(Now()).(path := path)
        decreases |path|
      {
        path := path[..|path| - 1];
      }
      path := path + [Mark(level, title)];
      blocks := blocks + [Block(title, Heading, page, Titles(path), level)];
    }

    method Flush()
      modifies this
      ensures Now() == Flushed(mode, levelOf, old(Now()))
    {
      var text := Join(' ', current);
      if text != "" {
        if mode == Layout && |current| == 1 && levelOf(text) != 0 {
          AddHeading(levelOf(text), text);
        } else {
          blocks := blocks + [Block(text, kind, page, Titles(path), 0)];
        }
      }
      current := [];
    }

    method FeedLine(line: Line)
      modifies this
      ensures Now() == Fed(mode, levelOf, old(Now()), line)
    {
      if line == Blank {
        Flush();
        return;
      }
      if mode == Markdown && line.heading != None {
        Flush();
        AddHeading(line.heading.value.level, line.heading.value.title);
        return;
      }
      if line.item {
        Flush();
        kind := Item;
        current := [line.text];
        return;
      }
      if current == [] {
        kind := Paragraph;
      }
      current := current + [line.text];
    }

    method Feed(lines: seq<Line>, page: Option<nat>)
      modifies this
      ensures Now() == AfterFeed(mode, levelOf, old(Now()), lines, page)
    {
      this.page := page;
      ghost var start := Now();
      for i := 0 to |lines|
        invariant Now() == FedAll(mode, levelOf, start, lines[..i])
      {
        assert lines[..i + 1][..i] == lines[..i];
        FeedLine(lines[i]);
      }
      assert lines[..|lines|] == lines;
      Flush();
    }
  }

  // ------------------------------------------------------------------ heading paths

  /** No later heading has the same or a smaller level. */
  predicate StaysOpen(marks: seq<Mark>, i: nat)
    requires i < |marks|
  {
    forall j :: i < j < |marks| ==> marks[j].level > marks[i].level
  }

  /** The headings from position i on that no later one closes, in document order. */
  function OpenFrom(marks: seq<Mark>, i: nat): seq<Mark>
    requires i <= |marks|
    decreases |marks| - i
  {
    if i == |marks| then [] else (if StaysOpen(marks, i) then [marks[i]] else []) + OpenFrom(marks, i + 1)
  }

  function Open(marks: seq<Mark>): seq<Mark> {
    OpenFrom(marks, 0)
  }

  predicate Nested(path: seq<Mark>) {
    forall i, j :: 0 <= i < j < |path| ==> path[i].level < path[j].level
  }

  /** Of marks with rising levels, those below a level. */
  function Below(path: seq<Mark>, level: nat): seq<Mark> {
    if path == [] then [] else (if path[0].level < level then [path[0]] else []) + Below(path[1..], level)
  }

  lemma {:induction false} BelowAll(path: seq<Mark>, level: nat)
    requires forall i :: 0 <= i < |path| ==> path[i].level < level
    ensures Below(path, level) == path
  {
    if path != [] {
      BelowAll(path[1..], level);
    }
  }

  lemma {:induction false} BelowLast(path: seq<Mark>, last: Mark, level: nat)
    requires last.level >= level
    ensures Below(path + [last], level) == Below(path, level)
  {
    if path == [] {
      assert (path + [last])[1..] == [];
    } else {
      assert (path + [last])[1..] == path[1..] + [last];
      BelowLast(path[1..], last, level);
    }
  }

  /** Popping a nested path from the end leaves what is below the level. */
  lemma {:induction false} PoppedIsBelow(path: seq<Mark>, level: nat)
    requires Nested(path)
    ensures Popped(path, level) == Below(path, level) && Popped(path, level) <= path
    ensures forall i :: 0 <= i < |Popped(path, level)| ==> Popped(path, level)[i].level < level
  {
    var n := |path| - 1;
    if path != [] && path[n].level >= level {
      PoppedIsBelow(path[..n], level);
      assert path == path[..n] + [path[n]];
      BelowLast(path[..n], path[n], level);
    } else {
      BelowAll(path, level);
    }
  }

  lemma StaysOpenStep(marks: seq<Mark>, m: Mark, i: nat)
    requires i < |marks|
    ensures StaysOpen(marks + [m], i) <==> StaysOpen(marks, i) && m.level > marks[i].level
  {
    var longer := marks + [m];
    assert longer[|marks|] == m && forall j :: 0 <= j < |marks| ==> longer[j] == marks[j];
  }

  lemma BelowCons(m: Mark, path: seq<Mark>, level: nat)
    ensures Below([m] + path, level) == (if m.level < level then [m] else []) + Below(path, level)
  {
    assert ([m] + path)[1..] == path;
  }

  /** What a new heading leaves of one that may be open and of those after it. */
  lemma BelowHere(x: Mark, open: bool, later: seq<Mark>, m: Mark)
    ensures Below((if open then [x] else []) + later, m.level) + [m]
      == (if open && m.level > x.level then [x] else []) + (Below(later, m.level) + [m])
  {
    BelowCons(x, later, m.level);
    assert [] + later == later && [] + (Below(later, m.level) + [m]) == Below(later, m.level) + [m];
    assert [x] + Below(later, m.level) + [m] == [x] + (Below(later, m.level) + [m]);
  }

  lemma {:induction false} OpenAtEnd(marks: seq<Mark>, m: Mark)
    ensures OpenFrom(marks + [m], |marks|) == [m]
  {
    var longer := marks + [m];
    assert StaysOpen(longer, |marks|) && OpenFrom(longer, |longer|) == [];
  }

  lemma {:induction false} OpenStep(marks: seq<Mark>, m: Mark, i: nat)
    requires i <= |marks|
    ensures OpenFrom(marks + [m], i) == Below(OpenFrom(marks, i), m.level) + [m]
    decreases |marks| - i
  {
    if i == |marks| {
      OpenAtEnd(marks, m);
    } else {
      OpenStep(marks, m, i + 1);
      StaysOpenStep(marks, m, i);
      BelowHere(marks[i], StaysOpen(marks, i), OpenFrom(marks, i + 1), m);
    }
  }

  /** The headings among the blocks. */
  function Marks(blocks: seq<Block>): seq<Mark> {
    if blocks == [] then []
    else
      var b := blocks[|blocks| - 1];
      Marks(blocks[..|blocks| - 1]) + (if b.kind.Heading? then [Mark(b.level, b.text)] else [])
  }

  /** A block's headings are the titles of the headings, itself included, that are open there,
      and those are nested. */
  predicate PathIsRight(blocks: seq<Block>, i: nat)
    requires i < |blocks|
  {
    var open := Open(Marks(blocks[..i + 1]));
    blocks[i].headings == Titles(open) && Nested(open)
  }

  ghost predicate Inv(s: State) {
    && Nested(s.path) && s.path == Open(Marks(s.blocks)) && !s.kind.Heading?
    && (forall i :: 0 <= i < |s.blocks| ==> PathIsRight(s.blocks, i))
  }

  lemma MoreBlocks(blocks: seq<Block>, b: Block)
    requires forall i :: 0 <= i < |blocks| ==> PathIsRight(blocks, i)
    requires b.headings == Titles(Open(Marks(blocks + [b]))) && Nested(Open(Marks(blocks + [b])))
    ensures forall i :: 0 <= i < |blocks + [b]| ==> PathIsRight(blocks + [b], i)
  {
    var longer := blocks + [b];
    forall i | 0 <= i < |longer| ensures PathIsRight(longer, i) {
      if i < |blocks| {
        assert longer[..i + 1] == blocks[..i + 1];
        assert PathIsRight(blocks, i);
      } else {
        assert longer[..i + 1] == longer;
      }
    }
  }

  lemma HeadedKeepsInv(s: State, level: nat, title: string)
    requires Inv(s)
    ensures Inv(Headed(s, level, title))
  {
    var t := Headed(s, level, title);
    var m := Mark(level, title);
    assert t.blocks[..|s.blocks|] == s.blocks;
    assert Marks(t.blocks) == Marks(s.blocks) + [m];
    PoppedIsBelow(s.path, level);
    OpenStep(Marks(s.blocks), m, 0);
    MoreBlocks(s.blocks, t.blocks[|s.blocks|]);
  }

  lemma FlushedKeepsInv(mode: Mode, levelOf: Heuristic, s: State)
    requires Inv(s)
    ensures Inv(Flushed(mode, levelOf, s))
  {
    var text := Join(' ', s.current);
    if text == "" {
    } else if mode.Layout? && |s.current| == 1 && levelOf(text) != 0 {
      HeadedKeepsInv(s, levelOf(text), text);
    } else {
      var b := Block(text, s.kind, s.page, Titles(s.path), 0);
      assert (s.blocks + [b])[..|s.blocks|] == s.blocks;
      assert Marks(s.blocks + [b]) == Marks(s.blocks);
      MoreBlocks(s.blocks, b);
    }
  }

  lemma {:induction false} FedAllKeepsInv(mode: Mode, levelOf: Heuristic, s: State, lines: seq<Line>)
    requires Inv(s)
    ensures Inv(FedAll(mode, levelOf, s, lines))
  {
    if lines != [] {
      var n := |lines| - 1;
      FedAllKeepsInv(mode, levelOf, s, lines[..n]);
      var before := FedAll(mode, levelOf, s, lines[..n]);
      FlushedKeepsInv(mode, levelOf, before);
      match lines[n]
      case Blank =>
      case Words(_, _, heading) =>
        if mode.Markdown? && heading.Some? {
          HeadedKeepsInv(Flushed(mode, levelOf, before), heading.value.level, heading.value.title);
        }
    }
  }

  function FedPages(mode: Mode, levelOf: Heuristic, pages: seq<seq<Line>>): State {
    if pages == [] then START
    else
      var n := |pages| - 1;
      AfterFeed(mode, levelOf, FedPages(mode, levelOf, pages[..n]), pages[n], Some(n + 1))
  }

  /** Over any pages of lines, every block's heading path is exactly the earlier headings that
      no later one of the same or a smaller level closes, and its levels strictly increase. */
  lemma {:induction false} HeadingPathsAreRight(mode: Mode, levelOf: Heuristic, pages: seq<seq<Line>>)
    ensures Inv(FedPages(mode, levelOf, pages))
  {
    if pages == [] {
      assert Marks([]) == [] && Open([]) == [];
    } else {
      var n := |pages| - 1;
      HeadingPathsAreRight(mode, levelOf, pages[..n]);
      var before := FedPages(mode, levelOf, pages[..n]).(page := Some(n + 1));
      FedAllKeepsInv(mode, levelOf, before, pages[n]);
      FlushedKeepsInv(mode, levelOf, FedAll(mode, levelOf, before, pages[n]));
    }
  }
}
