/**
 * Sorting ranks by ordinal, as `values.sort_by(... enum_index().cmp ...)` does
 * in src/poker/combination.rs. Ranks with the same ordinal are the same rank,
 * so every sorting algorithm, stable or not, yields the same sequence.
 */
module RankSort {
  import opened DeckCards

  /** Ordinals never decrease along s. */
  predicate Sorted(s: seq<DeckCard>)
  {
    forall i, j :: 0 <= i < j < |s| ==> Ordinal(s[i]) <= Ordinal(s[j])
  }

  /** Ordinals that never decrease from one rank to the next never decrease at all. */
  lemma {:induction false} SortedByNeighbours(s: seq<DeckCard>)
    requires forall i :: 0 < i < |s| ==> Ordinal(s[i - 1]) <= Ordinal(s[i])
    ensures Sorted(s)
    decreases |s|
  {
    if |s| > 1 {
      var init := s[..|s| - 1];
      SortedByNeighbours(init);
      forall i, j | 0 <= i < j < |s| ensures Ordinal(s[i]) <= Ordinal(s[j]) {
        if j < |s| - 1 {
          assert s[i] == init[i] && s[j] == init[j];
        } else if i < j - 1 {
          assert s[i] == init[i] && s[j - 1] == init[j - 1];
        }
      }
    }
  }

  /** Inserts x into a sorted sequence, before the first rank not below it. */
  function Insert(x: DeckCard, s: seq<DeckCard>): (r: seq<DeckCard>)
    requires Sorted(s)
    ensures Sorted(r)
    ensures multiset(r) == multiset(s) + multiset{x}
    ensures |r| == |s| + 1
    ensures r[0] == x || (|s| > 0 && r[0] == s[0])
  {
    if |s| == 0 then [x]
    else if Ordinal(x) <= Ordinal(s[0]) then [x] + s
    else
      var tail := Insert(x, s[1..]);
      assert s == [s[0]] + s[1..];
      assert Ordinal(s[0]) <= Ordinal(tail[0]);
      [s[0]] + tail
  }

  /** Insertion sort by ordinal. */
  function SortRanks(s: seq<DeckCard>): (r: seq<DeckCard>)
    ensures Sorted(r)
    ensures multiset(r) == multiset(s)
    ensures |r| == |s|
  {
    if |s| == 0 then []
    else
      assert s == [s[0]] + s[1..];
      Insert(s[0], SortRanks(s[1..]))
  }

  /** A sorted rearrangement is unique: two sorted sequences with the same ranks are equal. */
  lemma {:induction false} SortedUnique(a: seq<DeckCard>, b: seq<DeckCard>)
    requires Sorted(a) && Sorted(b)
    requires multiset(a) == multiset(b)
    ensures a == b
    decreases |a|
  {
    assert |a| == |multiset(a)| == |multiset(b)| == |b|;
    if |a| > 0 {
      assert a[0] in multiset(b);
      assert b[0] in multiset(a);
      assert Ordinal(b[0]) <= Ordinal(a[0]);
      assert Ordinal(a[0]) <= Ordinal(b[0]);
      OrdinalInjective(a[0], b[0]);
      assert a == [a[0]] + a[1..];
      assert b == [b[0]] + b[1..];
      assert multiset(a) == multiset{a[0]} + multiset(a[1..]);
      assert multiset(b) == multiset{b[0]} + multiset(b[1..]);
      assert a[0] == b[0];
      forall y ensures multiset(a[1..])[y] == multiset(b[1..])[y] {
        assert multiset(a)[y] == multiset{a[0]}[y] + multiset(a[1..])[y];
        assert multiset(b)[y] == multiset{b[0]}[y] + multiset(b[1..])[y];
      }
      assert multiset(a[1..]) == multiset(b[1..]);
      SortedUnique(a[1..], b[1..]);
    }
  }

  /** In a sorted sequence without repeated ranks the last rank is strictly above the one before it, which tops the rest. */
  lemma SortedDistinctTop(s: seq<DeckCard>)
    requires Sorted(s) && |s| >= 2
    requires forall i, j :: 0 <= i < j < |s| ==> s[i] != s[j]
    ensures Below(s[|s| - 2], s[|s| - 1])
    ensures forall j :: 0 <= j < |s| - 1 ==> Ordinal(s[j]) <= Ordinal(s[|s| - 2])
  {
    OrdinalInjective(s[|s| - 2], s[|s| - 1]);
  }
}
