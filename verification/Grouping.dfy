/**
  Greedy grouping of a list into consecutive groups by a rule that holds of every single item
  and of every part of a group it holds of.
 */
module Grouping {
  function Flatten<T>(groups: seq<seq<T>>): seq<T> {
    if groups == [] then [] else groups[0] + Flatten(groups[1..])
  }

  /** Extends the open group while the rule allows, else starts the next one. */
  function Greedy<T>(current: seq<T>, rest: seq<T>, ok: seq<T> -> bool): seq<seq<T>>
    decreases |rest|
  {
    if rest == [] then if current == [] then [] else [current]
    else if current != [] && !ok(current + [rest[0]]) then [current] + Greedy([rest[0]], rest[1..], ok)
    else Greedy(current + [rest[0]], rest[1..], ok)
  }

  predicate IsGrouping<T(==)>(groups: seq<seq<T>>, items: seq<T>, ok: seq<T> -> bool) {
    Flatten(groups) == items && forall i :: 0 <= i < |groups| ==> groups[i] != [] && ok(groups[i])
  }

  /** Holds of single items and of the parts of what it holds of. */
  ghost predicate ClosedUnderParts<T(!new)>(ok: seq<T> -> bool) {
    && (forall x :: ok([x]))
    && (forall s: seq<T>, i: nat, j: nat :: i < j <= |s| && ok(s) ==> ok(s[i..j]))
  }

  /** How many of the items ahead join an open group. */
  function Extent<T>(current: seq<T>, rest: seq<T>, ok: seq<T> -> bool): (m: nat)
    ensures m <= |rest|
    decreases |rest|
  {
    if rest == [] || !ok(current + [rest[0]]) then 0 else 1 + Extent(current + [rest[0]], rest[1..], ok)
  }

  lemma PrefixMoves<T>(current: seq<T>, rest: seq<T>, m: nat)
    requires m < |rest|
    ensures current + rest[..m + 1] == current + [rest[0]] + rest[1..][..m]
  {
    assert rest[..m + 1] == [rest[0]] + rest[1..][..m];
  }

  /** The first group is the longest the rule allows. */
  lemma {:induction false} FirstGroup<T>(current: seq<T>, rest: seq<T>, ok: seq<T> -> bool)
    requires current != [] && ok(current)
    ensures var m := Extent(current, rest, ok);
      && ok(current + rest[..m])
      && (m < |rest| ==> !ok(current + rest[..m + 1]))
      && Greedy(current, rest, ok) == [current + rest[..m]] + Greedy([], rest[m..], ok)
    decreases |rest|
  {
    if rest == [] {
      assert current + rest[..0] == current;
    } else if !ok(current + [rest[0]]) {
      assert current + rest[..0] == current && rest[..1] == [rest[0]] && rest[0..] == rest;
      assert [] + [rest[0]] == [rest[0]];
    } else {
      var grown, m := current + [rest[0]], Extent(current + [rest[0]], rest[1..], ok);
      FirstGroup(grown, rest[1..], ok);
      PrefixMoves(current, rest, m);
      if m < |rest| - 1 {
        PrefixMoves(current, rest, m + 1);
      }
      assert rest[1..][m..] == rest[m + 1..];
    }
  }

  /** Grouping a non-empty list: its longest allowed prefix, then the groups of what is left. */
  lemma GroupingStep<T(!new)>(items: seq<T>, ok: seq<T> -> bool) returns (n: nat)
    requires items != [] && ClosedUnderParts(ok)
    ensures 0 < n <= |items| && ok(items[..n])
    ensures n < |items| ==> !ok(items[..n + 1])
    ensures Greedy([], items, ok) == [items[..n]] + Greedy([], items[n..], ok)
  {
    var first := [items[0]];
    assert [] + first == first;
    FirstGroup(first, items[1..], ok);
    n := 1 + Extent(first, items[1..], ok);
    assert first + items[1..][..n - 1] == items[..n] && items[1..][n - 1..] == items[n..];
    assert n < |items| ==> first + items[1..][..n] == items[..n + 1];
  }

  /** Nothing is lost or reordered, and every group obeys the rule. */
  lemma {:induction false} GreedyIsGrouping<T(!new)>(items: seq<T>, ok: seq<T> -> bool)
    requires ClosedUnderParts(ok)
    ensures IsGrouping(Greedy([], items, ok), items, ok)
    decreases |items|
  {
    if items != [] {
      var n := GroupingStep(items, ok);
      GreedyIsGrouping(items[n..], ok);
      var later := Greedy([], items[n..], ok);
      assert ([items[..n]] + later)[1..] == later;
      assert items[..n] + items[n..] == items;
    }
  }

  /** The groups with the first k items taken off. */
  function Trimmed<T>(groups: seq<seq<T>>, k: nat): seq<seq<T>>
    requires k <= |Flatten(groups)|
    decreases |groups|
  {
    if k == 0 then groups
    else if k >= |groups[0]| then Trimmed(groups[1..], k - |groups[0]|)
    else [groups[0][k..]] + groups[1..]
  }

  lemma {:induction false} TrimmedIsGrouping<T(!new)>(groups: seq<seq<T>>, items: seq<T>, k: nat, ok: seq<T> -> bool)
    requires ClosedUnderParts(ok) && IsGrouping(groups, items, ok) && k <= |items|
    ensures IsGrouping(Trimmed(groups, k), items[k..], ok) && |Trimmed(groups, k)| <= |groups|
    decreases |groups|
  {
    if k > 0 {
      var g, rest := groups[0], groups[1..];
      if k >= |g| {
        TrimmedIsGrouping(rest, Flatten(rest), k - |g|, ok);
        assert items[k..] == Flatten(rest)[k - |g|..];
      } else {
        assert g[k..|g|] == g[k..];
        assert ([g[k..]] + rest)[1..] == rest;
        assert items[k..] == g[k..] + Flatten(rest);
      }
    }
  }

  /** No grouping in order by the same rule has fewer groups. */
  lemma {:induction false} GreedyIsFewest<T(!new)>(items: seq<T>, ok: seq<T> -> bool, other: seq<seq<T>>)
    requires ClosedUnderParts(ok) && IsGrouping(other, items, ok)
    ensures |Greedy([], items, ok)| <= |other|
    decreases |items|
  {
    if items != [] {
      var n := GroupingStep(items, ok);
      var g, rest := other[0], other[1..];
      assert items == g + Flatten(rest);
      if |g| > n {
        PrefixObeys(items, ok, g, n + 1);
        assert false;
      }
      TrimmedIsGrouping(rest, Flatten(rest), n - |g|, ok);
      assert Flatten(rest)[n - |g|..] == items[n..];
      GreedyIsFewest(items[n..], ok, Trimmed(rest, n - |g|));
    }
  }

  lemma PrefixObeys<T(!new)>(items: seq<T>, ok: seq<T> -> bool, g: seq<T>, n: nat)
    requires ClosedUnderParts(ok) && g <= items && ok(g) && 0 < n <= |g|
    ensures ok(items[..n])
  {
    assert g[0..n] == items[..n];
  }

  // ------------------------------------------------------------------ the only full grouping

  /** No group could have taken the first item of the next. */
  predicate IsFull<T>(groups: seq<seq<T>>, ok: seq<T> -> bool) {
    forall i :: 0 <= i < |groups| - 1 && groups[i + 1] != [] ==> !ok(groups[i] + [groups[i + 1][0]])
  }

  lemma FullOnMore<T>(group: seq<T>, later: seq<seq<T>>, ok: seq<T> -> bool)
    requires IsFull(later, ok) && (later != [] && later[0] != [] ==> !ok(group + [later[0][0]]))
    ensures IsFull([group] + later, ok)
  {
    var groups := [group] + later;
    forall i | 0 <= i < |groups| - 1 && groups[i + 1] != [] ensures !ok(groups[i] + [groups[i + 1][0]]) {
      if i > 0 {
        assert groups[i] == later[i - 1] && groups[i + 1] == later[i - 1 + 1];
      }
    }
  }

  lemma FullWithoutFirst<T>(groups: seq<seq<T>>, ok: seq<T> -> bool)
    requires IsFull(groups, ok) && groups != []
    ensures IsFull(groups[1..], ok)
  {
    var later := groups[1..];
    forall i | 0 <= i < |later| - 1 && later[i + 1] != [] ensures !ok(later[i] + [later[i + 1][0]]) {
      assert later[i] == groups[i + 1] && later[i + 1] == groups[i + 1 + 1];
    }
  }

  lemma FirstOfGrouping<T(!new)>(groups: seq<seq<T>>, items: seq<T>, ok: seq<T> -> bool)
    requires IsGrouping(groups, items, ok) && items != []
    ensures groups != [] && groups[0] != [] && groups[0] <= items && groups[0][0] == items[0]
    ensures IsGrouping(groups[1..], items[|groups[0]|..], ok)
  {
    assert items == groups[0] + Flatten(groups[1..]);
  }

  lemma {:induction false} GreedyIsFull<T(!new)>(items: seq<T>, ok: seq<T> -> bool)
    requires ClosedUnderParts(ok)
    ensures IsFull(Greedy([], items, ok), ok)
    decreases |items|
  {
    if items != [] {
      var n := GroupingStep(items, ok);
      GreedyIsFull(items[n..], ok);
      var later := Greedy([], items[n..], ok);
      if n < |items| {
        GreedyIsGrouping(items[n..], ok);
        FirstOfGrouping(later, items[n..], ok);
        assert items[..n] + [items[n]] == items[..n + 1];
      }
      FullOnMore(items[..n], later, ok);
    }
  }

  /** The first group of a full grouping is the longest the rule allows. */
  lemma FirstIsLongest<T(!new)>(groups: seq<seq<T>>, items: seq<T>, ok: seq<T> -> bool, n: nat)
    requires ClosedUnderParts(ok) && IsGrouping(groups, items, ok) && IsFull(groups, ok) && items != []
    requires 0 < n <= |items| && ok(items[..n]) && (n < |items| ==> !ok(items[..n + 1]))
    ensures groups != [] && groups[0] == items[..n]
  {
    FirstOfGrouping(groups, items, ok);
    var g := groups[0];
    if |g| > n {
      PrefixObeys(items, ok, g, n + 1);
      assert false;
    }
    if |g| < n {
      FirstOfGrouping(groups[1..], items[|g|..], ok);
      assert groups[0 + 1] != [] && g + [groups[0 + 1][0]] == items[..|g| + 1];
      PrefixObeys(items, ok, items[..n], |g| + 1);
      assert false;
    }
  }

  /** Greedy grouping is the one grouping in which no group could have taken one item more. */
  lemma {:induction false} GreedyIffFull<T(!new)>(groups: seq<seq<T>>, items: seq<T>, ok: seq<T> -> bool)
    requires ClosedUnderParts(ok)
    ensures groups == Greedy([], items, ok) <==> IsGrouping(groups, items, ok) && IsFull(groups, ok)
    decreases |items|
  {
    GreedyIsGrouping(items, ok);
    GreedyIsFull(items, ok);
    if items != [] && IsGrouping(groups, items, ok) && IsFull(groups, ok) {
      var n := GroupingStep(items, ok);
      FirstIsLongest(groups, items, ok, n);
      FirstOfGrouping(groups, items, ok);
      FullWithoutFirst(groups, ok);
      GreedyIffFull(groups[1..], items[n..], ok);
      assert groups == [groups[0]] + groups[1..];
    }
  }
}
