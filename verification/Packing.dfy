/** Packing units into sections and sections into chunks (`knowledge/chunking.py`). */
module Packing {
  import opened Common
  import opened Chunking
  import opened Grouping

  type Group = seq<Unit>

  function Texts(group: Group): (texts: seq<string>)
    ensures |texts| == |group|
    ensures forall i :: 0 <= i < |group| ==> texts[i] == group[i].text
  {
    if group == [] then [] else Texts(group[..|group| - 1]) + [group[|group| - 1].text]
  }

  function Weight(group: Group): nat {
    Tokens(Join(' ', Texts(group)))
  }

  predicate SameHeadings(group: Group) {
    forall i :: 0 <= i < |group| ==> group[i].headings == group[0].headings
  }

  /** One heading path, and over the limit only as a single unit. */
  predicate IsGroup(group: Group, limit: nat) {
    SameHeadings(group) && (|group| <= 1 || Weight(group) <= limit)
  }

  function Rules(limit: nat): Group -> bool {
    (group: Group) => IsGroup(group, limit)
  }

  predicate Closes(current: Group, unit: Unit, limit: nat) {
    current != [] && (unit.headings != current[|current| - 1].headings || Weight(current + [unit]) > limit)
  }

  function Packed(units: seq<Unit>, limit: nat): seq<Group> {
    Greedy([], units, Rules(limit))
  }

  lemma PartWeighsLess(a: Group, b: Group, c: Group)
    requires b != []
    ensures Weight(b) <= Weight(a + b + c)
  {
    assert Texts(a + b + c) == Texts(a) + Texts(b) + Texts(c);
    FewerPartsFewerTokens(' ', ' ', Texts(a), Texts(b), Texts(c));
  }

  lemma PartIsGroup(group: Group, i: nat, j: nat, limit: nat)
    requires IsGroup(group, limit) && i < j <= |group|
    ensures IsGroup(group[i..j], limit)
  {
    var a, b, c := group[..i], group[i..j], group[j..];
    assert group == a + b + c;
    PartWeighsLess(a, b, c);
    assert SameHeadings(b) by {
      assert forall k :: 0 <= k < |b| ==> b[k] == group[i + k];
    }
  }

  lemma RulesAreClosed(limit: nat)
    ensures ClosedUnderParts(Rules(limit))
  {
    forall group: Group, i: nat, j: nat | i < j <= |group| && Rules(limit)(group) ensures Rules(limit)(group[i..j]) {
      PartIsGroup(group, i, j, limit);
    }
  }

  lemma GrownGroup(current: Group, unit: Unit, limit: nat)
    requires IsGroup(current, limit)
    ensures IsGroup(current + [unit], limit) <==> !Closes(current, unit, limit)
  {
    var grown := current + [unit];
    assert grown[|current|] == unit;
    assert forall i :: 0 <= i < |current| ==> grown[i] == current[i];
  }

  method PackUnits(units: seq<Unit>, limit: nat) returns (groups: seq<Group>)
    ensures groups == Packed(units, limit)
  {
    groups := [];
    var current: Group := [];
    ghost var ok := Rules(limit);
    for i := 0 to |units|
      invariant IsGroup(current, limit)
      invariant groups + Greedy(current, units[i..], ok) == Packed(units, limit)
    {
      assert units[i..][1..] == units[i + 1..];
      var unit := units[i];
      GrownGroup(current, unit, limit);
      if Closes(current, unit, limit) {
        ghost var later := Greedy([unit], units[i + 1..], ok);
        assert groups + ([current] + later) == groups + [current] + later;
        groups := groups + [current];
        current := [];
        assert [] + [unit] == [unit];
      }
      current := current + [unit];
    }
    if current != [] {
      groups := groups + [current];
    }
  }

  /** Packing loses and reorders nothing, never mixes heading paths, exceeds the limit only in
      single-unit groups, and uses the fewest groups of any grouping in order that does. */
  lemma PackingIsTheFewest(units: seq<Unit>, limit: nat, other: seq<Group>)
    ensures IsGrouping(Packed(units, limit), units, Rules(limit))
    ensures IsGrouping(other, units, Rules(limit)) ==> |Packed(units, limit)| <= |other|
  {
    RulesAreClosed(limit);
    GreedyIsGrouping(units, Rules(limit));
    if IsGrouping(other, units, Rules(limit)) {
      GreedyIsFewest(units, Rules(limit), other);
    }
  }
}
