/**
  Parent-child chunking (`knowledge/chunking.py`): oversized paragraphs are split at sentences
  with one sentence of overlap, units are packed greedily into sections, and sections into
  chunks.  Where a sentence ends is a regular expression's business: `Splitter` stands for it.
 */
module Chunking {
  import opened Common
  import opened Blocks

  datatype Unit = Unit(text: string, ordinal: nat, page: Option<nat>, headings: seq<string>)

  type Splitter = string -> seq<string>

  function Length(parts: seq<string>): nat {
    if parts == [] then 0 else Length(parts[..|parts| - 1]) + |parts[|parts| - 1]|
  }

  lemma {:induction false} JoinLength(sep: char, parts: seq<string>)
    ensures |Join(sep, parts)| == Length(parts) + (if parts == [] then 0 else |parts| - 1)
  {
    if |parts| > 1 {
      JoinLength(sep, parts[..|parts| - 1]);
    } else if |parts| == 1 {
      assert Length(parts[..0]) == 0;
    }
  }

  lemma {:induction false} LengthOfUnion(a: seq<string>, b: seq<string>)
    ensures Length(a + b) == Length(a) + Length(b)
  {
    if b == [] {
      assert a + b == a;
    } else {
      LengthOfUnion(a, b[..|b| - 1]);
      assert (a + b)[..|a + b| - 1] == a + b[..|b| - 1];
    }
  }

  /** Joining fewer parts, with whatever separator, takes no more tokens. */
  lemma FewerPartsFewerTokens(s: char, t: char, before: seq<string>, parts: seq<string>, after: seq<string>)
    requires parts != []
    ensures Tokens(Join(s, parts)) <= Tokens(Join(t, before + parts + after))
  {
    JoinLength(s, parts);
    JoinLength(t, before + parts + after);
    LengthOfUnion(before, parts);
    LengthOfUnion(before + parts, after);
    ShorterFewerTokens(Join(s, parts), Join(t, before + parts + after));
  }

  lemma ShorterFewerTokens(a: string, b: string)
    requires |a| <= |b|
    ensures Tokens(a) <= Tokens(b)
  {
  }

  // ------------------------------------------------------------------ splitting at sentences

  /** The sentence would take the open piece over the target. */
  predicate Overflows(piece: seq<string>, sentence: string, target: nat) {
    piece != [] && Tokens(Join(' ', piece + [sentence])) > target
  }

  function PiecesFrom(piece: seq<string>, rest: seq<string>, target: nat): seq<seq<string>>
    decreases |rest|
  {
    if rest == [] then if piece == [] then [] else [piece]
    else if Overflows(piece, rest[0], target) then
      [piece] + PiecesFrom([piece[|piece| - 1], rest[0]], rest[1..], target)
    else PiecesFrom(piece + [rest[0]], rest[1..], target)
  }

  /** Piece i starts with the sentence the one before it ended with. */
  predicate StartsWithLast(pieces: seq<seq<string>>, i: nat)
    requires 0 < i < |pieces|
  {
    pieces[i - 1] != [] && pieces[i] != [] && pieces[i][0] == pieces[i - 1][|pieces[i - 1]| - 1]
  }

  predicate Overlapping(pieces: seq<seq<string>>) {
    && (forall i :: 0 <= i < |pieces| ==> pieces[i] != [])
    && (forall i :: 0 < i < |pieces| ==> StartsWithLast(pieces, i))
  }

  /** The pieces with each one's first sentence, the overlap, dropped. */
  function WithoutOverlaps(pieces: seq<seq<string>>): seq<string>
    requires forall i :: 0 <= i < |pieces| ==> pieces[i] != []
  {
    if pieces == [] then [] else pieces[0][1..] + WithoutOverlaps(pieces[1..])
  }

  function Rebuilt(pieces: seq<seq<string>>): seq<string>
    requires forall i :: 0 <= i < |pieces| ==> pieces[i] != []
  {
    if pieces == [] then [] else [pieces[0][0]] + WithoutOverlaps(pieces)
  }

  predicate FitsOrPair(piece: seq<string>, target: nat) {
    Tokens(Join(' ', piece)) <= target || |piece| <= 2
  }

  lemma OneMorePiece(piece: seq<string>, later: seq<seq<string>>)
    requires piece != [] && later != [] && Overlapping(later) && later[0][0] == piece[|piece| - 1]
    ensures Overlapping([piece] + later)
    ensures WithoutOverlaps([piece] + later) == piece[1..] + WithoutOverlaps(later)
  {
    var pieces := [piece] + later;
    forall i | 0 < i < |pieces| ensures StartsWithLast(pieces, i) {
      if i > 1 {
        assert StartsWithLast(later, i - 1);
      }
    }
    assert pieces[1..] == later;
  }

  /** The pieces are a way to cut the open piece and the rest. */
  predicate Cuts(pieces: seq<seq<string>>, piece: seq<string>, rest: seq<string>, target: nat)
    requires piece != []
  {
    && pieces != [] && Overlapping(pieces) && pieces[0][0] == piece[0]
    && WithoutOverlaps(pieces) == piece[1..] + rest
    && (forall i :: 0 <= i < |pieces| ==> FitsOrPair(pieces[i], target))
  }

  lemma LastPieceCuts(piece: seq<string>, target: nat)
    requires piece != [] && FitsOrPair(piece, target)
    ensures Cuts([piece], piece, [], target)
  {
    assert WithoutOverlaps([piece]) == piece[1..] + WithoutOverlaps([]);
    assert piece[1..] + [] == piece[1..];
  }

  lemma NewPieceCuts(piece: seq<string>, rest: seq<string>, later: seq<seq<string>>, target: nat)
    requires piece != [] && rest != [] && FitsOrPair(piece, target)
    requires Cuts(later, [piece[|piece| - 1], rest[0]], rest[1..], target)
    ensures Cuts([piece] + later, piece, rest, target)
  {
    OneMorePiece(piece, later);
    assert [piece[|piece| - 1], rest[0]][1..] + rest[1..] == rest;
  }

  lemma LongerPieceCuts(piece: seq<string>, rest: seq<string>, pieces: seq<seq<string>>, target: nat)
    requires piece != [] && rest != [] && Cuts(pieces, piece + [rest[0]], rest[1..], target)
    ensures Cuts(pieces, piece, rest, target)
  {
    assert (piece + [rest[0]])[1..] + rest[1..] == piece[1..] + rest;
  }

  lemma {:induction false} PiecesOf(piece: seq<string>, rest: seq<string>, target: nat)
    requires piece != [] && FitsOrPair(piece, target)
    ensures Cuts(PiecesFrom(piece, rest, target), piece, rest, target)
    decreases |rest|
  {
    if rest == [] {
      LastPieceCuts(piece, target);
    } else if Overflows(piece, rest[0], target) {
      var next := [piece[|piece| - 1], rest[0]];
      PiecesOf(next, rest[1..], target);
      NewPieceCuts(piece, rest, PiecesFrom(next, rest[1..], target), target);
    } else {
      PiecesOf(piece + [rest[0]], rest[1..], target);
      LongerPieceCuts(piece, rest, PiecesFrom(piece, rest, target), target);
    }
  }

  /** Splitting an oversized paragraph is reversible, and every piece fits the target or has at
      most two sentences. */
  lemma SplitIsReversible(sentences: seq<string>, target: nat)
    ensures var pieces := PiecesFrom([], sentences, target);
      && Overlapping(pieces) && Rebuilt(pieces) == sentences
      && (forall i :: 0 <= i < |pieces| ==> FitsOrPair(pieces[i], target))
  {
    if sentences != [] {
      var first := [sentences[0]];
      assert [] + first == first;
      assert PiecesFrom([], sentences, target) == PiecesFrom(first, sentences[1..], target);
      PiecesOf(first, sentences[1..], target);
      assert first[1..] + sentences[1..] == sentences[1..];
      assert [sentences[0]] + sentences[1..] == sentences;
    }
  }

  // ------------------------------------------------------------------ units

  datatype Config = Config(target: nat, max: nat, split: nat)

  function UnitsOfPieces(pieces: seq<seq<string>>, ordinal: nat, block: Block): (units: seq<Unit>)
    ensures |units| == |pieces|
    ensures forall i :: 0 <= i < |pieces| ==> units[i] == UnitOf(pieces[i], ordinal, block)
  {
    if pieces == [] then []
    else [UnitOf(pieces[0], ordinal, block)] + UnitsOfPieces(pieces[1..], ordinal, block)
  }

  function UnitsOfBlock(block: Block, ordinal: nat, cfg: Config, sentences: Splitter): seq<Unit> {
    if Tokens(block.text) <= cfg.split then [Unit(block.text, ordinal, block.page, block.headings)]
    else UnitsOfPieces(PiecesFrom([], sentences(block.text), cfg.target), ordinal, block)
  }

  /** The units of the blocks, numbering paragraphs and items after `ordinal`. */
  function UnitsFrom(blocks: seq<Block>, ordinal: nat, cfg: Config, sentences: Splitter): seq<Unit> {
    if blocks == [] then []
    else if blocks[0].kind.Heading? then UnitsFrom(blocks[1..], ordinal, cfg, sentences)
    else UnitsOfBlock(blocks[0], ordinal + 1, cfg, sentences) + UnitsFrom(blocks[1..], ordinal + 1, cfg, sentences)
  }

  function UnitOf(piece: seq<string>, ordinal: nat, block: Block): Unit {
    Unit(Join(' ', piece), ordinal, block.page, block.headings)
  }

  /** The units still to come with `piece` open and the sentences from i on. */
  function UnitsAhead(piece: seq<string>, list: seq<string>, i: nat, ordinal: nat, block: Block, target: nat): seq<Unit>
    requires i <= |list|
  {
    UnitsOfPieces(PiecesFrom(piece, list[i..], target), ordinal, block)
  }

  lemma PiecesStep(piece: seq<string>, list: seq<string>, i: nat, target: nat)
    requires i < |list|
    ensures PiecesFrom(piece, list[i..], target) ==
      if Overflows(piece, list[i], target)
      then [piece] + PiecesFrom([piece[|piece| - 1]] + [list[i]], list[i + 1..], target)
      else PiecesFrom(piece + [list[i]], list[i + 1..], target)
  {
    assert list[i..][1..] == list[i + 1..];
    assert piece != [] ==> [piece[|piece| - 1]] + [list[i]] == [piece[|piece| - 1], list[i]];
  }

  lemma UnitsOfCons(piece: seq<string>, later: seq<seq<string>>, ordinal: nat, block: Block)
    ensures UnitsOfPieces([piece] + later, ordinal, block) == [UnitOf(piece, ordinal, block)] + UnitsOfPieces(later, ordinal, block)
  {
    assert ([piece] + later)[1..] == later;
  }

  lemma UnitsAheadStep(piece: seq<string>, list: seq<string>, i: nat, ordinal: nat, block: Block, target: nat)
    requires i < |list|
    ensures UnitsAhead(piece, list, i, ordinal, block, target) ==
      if Overflows(piece, list[i], target)
      then [UnitOf(piece, ordinal, block)]
        + UnitsAhead([piece[|piece| - 1]] + [list[i]], list, i + 1, ordinal, block, target)
      else UnitsAhead(piece + [list[i]], list, i + 1, ordinal, block, target)
  {
    PiecesStep(piece, list, i, target);
    if Overflows(piece, list[i], target) {
      UnitsOfCons(piece, PiecesFrom([piece[|piece| - 1]] + [list[i]], list[i + 1..], target), ordinal, block);
    }
  }

  /** The pieces of one oversized block, in one pass over its sentences. */
  method SplitBlock(block: Block, ordinal: nat, cfg: Config, sentences: Splitter) returns (units: seq<Unit>)
    requires Tokens(block.text) > cfg.split
    ensures units == UnitsOfBlock(block, ordinal, cfg, sentences)
  {
    var piece: seq<string> := [];
    var list := sentences(block.text);
    assert list[0..] == list;
    units := [];
    ghost var all := UnitsAhead(piece, list, 0, ordinal, block, cfg.target);
    for i := 0 to |list|
      invariant units + UnitsAhead(piece, list, i, ordinal, block, cfg.target) == all
    {
      UnitsAheadStep(piece, list, i, ordinal, block, cfg.target);
      var sentence := list[i];
      if Overflows(piece, sentence, cfg.target) {
        units := units + [UnitOf(piece, ordinal, block)];
        piece := [piece[|piece| - 1]];
      }
      piece := piece + [sentence];
    }
    if piece != [] {
      assert UnitsOfPieces([piece], ordinal, block) == [UnitOf(piece, ordinal, block)];
      units := units + [UnitOf(piece, ordinal, block)];
    }
  }

  lemma UnitsStep(blocks: seq<Block>, i: nat, ordinal: nat, cfg: Config, sentences: Splitter)
    requires i < |blocks|
    ensures UnitsFrom(blocks[i..], ordinal, cfg, sentences) ==
      if blocks[i].kind.Heading? then UnitsFrom(blocks[i + 1..], ordinal, cfg, sentences)
      else UnitsOfBlock(blocks[i], ordinal + 1, cfg, sentences) + UnitsFrom(blocks[i + 1..], ordinal + 1, cfg, sentences)
  {
    assert blocks[i..][1..] == blocks[i + 1..];
  }

  method SplitUnits(blocks: seq<Block>, cfg: Config, sentences: Splitter) returns (units: seq<Unit>)
    ensures units == UnitsFrom(blocks, 0, cfg, sentences)
  {
    units := [];
    var ordinal := 0;
    ghost var all := UnitsFrom(blocks, 0, cfg, sentences);
    for i := 0 to |blocks|
      invariant units + UnitsFrom(blocks[i..], ordinal, cfg, sentences) == all
    {
      UnitsStep(blocks, i, ordinal, cfg, sentences);
      var block := blocks[i];
      if block.kind == Heading {
        continue;
      }
      ordinal := ordinal + 1;
      var more: seq<Unit>;
      if Tokens(block.text) <= cfg.split {
        more := [Unit(block.text, ordinal, block.page, block.headings)];
      } else {
        more := SplitBlock(block, ordinal, cfg, sentences);
      }
      assert more == UnitsOfBlock(block, ordinal, cfg, sentences);
      units := units + more;
    }
  }
}
