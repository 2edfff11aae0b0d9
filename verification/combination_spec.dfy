/**
 * What each combination means on a line, stated without the hash order of
 * the pairs table and without the position of the cards, and the proof that
 * the classifier of src/poker/combination.rs answers exactly that: it is
 * sound and complete for this description, so its answer depends neither on
 * the iteration order of the pairs table nor on the order of the cards, and
 * everything it reports is taken from the line.
 */
module CombinationSpec {
  import opened Wrappers
  import opened DeckCards
  import opened Suits
  import opened PlayCards
  import opened Collection
  import opened Combinations
  import opened CombinationLaws

  /** No rank of the line is held by two cards. */
  ghost predicate NoRepeat(cards: seq<PlayCard>)
  {
    forall d :: Multiplicity(cards, d) <= 1
  }

  /** Rank d is held by some card and no card of the line ranks higher. */
  ghost predicate TopRank(cards: seq<PlayCard>, d: DeckCard)
  {
    d in RanksOf(cards) && forall x :: x in cards ==> Ordinal(x.value) <= Ordinal(d)
  }

  /** Every card of the line has suit s. */
  ghost predicate AllOfSuit(cards: seq<PlayCard>, s: Suit)
  {
    forall x :: x in cards ==> x.suit == s
  }

  /** The line forms no straight at all. */
  ghost predicate NoStraight(cards: seq<PlayCard>)
  {
    forall high :: !IsStraightTo(cards, high)
  }

  /**
   * Combination c is the line's combination: the reading of each poker
   * hand the classifier implements, including its own conventions (a four
   * of a kind or two repeated ranks only on five cards, the wheel topped by
   * Five, a straight or flush only on five cards).
   */
  ghost predicate Describes(cards: seq<PlayCard>, c: Combination)
  {
    match c
    case Kicker(d) => NoRepeat(cards) && NoStraight(cards) && !IsFlushLine(cards) && TopRank(cards, d)
    case Pair(d) => Multiplicity(cards, d) == 2 && forall e :: e != d ==> Multiplicity(cards, e) <= 1
    case ThreeOfAKind(d) => Multiplicity(cards, d) == 3 && forall e :: e != d ==> Multiplicity(cards, e) <= 1
    case FourOfAKind(d) => |cards| == 5 && Multiplicity(cards, d) == 4
    case TwoPairs(p1, p2) =>
      |cards| == 5 && Multiplicity(cards, p1) == 2 && Multiplicity(cards, p2) == 2 && Below(p2, p1)
    case FullHouse(t, d) => |cards| == 5 && Multiplicity(cards, t) == 3 && Multiplicity(cards, d) == 2
    case Straight(h) => IsStraightTo(cards, h) && !IsFlushLine(cards)
    case Flush(top) => NoRepeat(cards) && NoStraight(cards) && IsFlushLine(cards) && IsTopCard(cards, top)
    case StraightFlush(top) =>
      IsStraightTo(cards, top.value) && top.value != Ace && IsFlushLine(cards) && AllOfSuit(cards, top.suit)
    case RoyalFlush(s) => IsStraightTo(cards, Ace) && IsFlushLine(cards) && AllOfSuit(cards, s)
  }

  // ---------------------------------------------------------------------
  // Helpers on the pairs table and on straights
  // ---------------------------------------------------------------------

  /** A line whose ranks are those of a list without repeats has no repeated rank. */
  lemma RanksOfDistinctList(cards: seq<PlayCard>, ranks: seq<DeckCard>)
    requires multiset(RanksOf(cards)) == multiset(ranks) && NoDuplicates(ranks)
    ensures NoRepeat(cards)
  {
    NoDuplicatesCounts(ranks);
    forall d ensures Multiplicity(cards, d) <= 1 {
      assert multiset(RanksOf(cards))[d] == multiset(ranks)[d];
    }
  }

  /** The five ranks of a run are different. */
  lemma RunToDistinct(high: DeckCard)
    requires Ordinal(high) >= 4
    ensures NoDuplicates(RunTo(high))
  {
    var run := RunTo(high);
    forall i, j | 0 <= i < j < 5 ensures run[i] != run[j] {
      assert Ordinal(run[i]) < Ordinal(run[j]);
    }
  }

  /** A line holding the wheel's ranks has no repeated rank. */
  lemma WheelHasNoRepeat(cards: seq<PlayCard>)
    requires multiset(RanksOf(cards)) == multiset{Two, Three, Four, Five, Ace}
    ensures NoRepeat(cards)
  {
    assert multiset(Wheel) == multiset{Two, Three, Four, Five, Ace};
    assert NoDuplicates(Wheel);
    RanksOfDistinctList(cards, Wheel);
  }

  /** A line holding the ranks of a run has no repeated rank. */
  lemma RunHasNoRepeat(cards: seq<PlayCard>, high: DeckCard)
    requires Ordinal(high) >= 4 && multiset(RanksOf(cards)) == multiset(RunTo(high))
    ensures NoRepeat(cards)
  {
    RunToDistinct(high);
    RanksOfDistinctList(cards, RunTo(high));
  }

  /** A straight line holds five different ranks. */
  lemma StraightHasNoRepeat(cards: seq<PlayCard>, high: DeckCard)
    requires IsStraightTo(cards, high)
    ensures NoRepeat(cards)
  {
    if high == Five && multiset(RanksOf(cards)) == multiset{Two, Three, Four, Five, Ace} {
      WheelHasNoRepeat(cards);
    } else {
      RunHasNoRepeat(cards, high);
    }
  }

  /** The declaration order of the ranks is one possible hash order. */
  lemma DeclarationIsHashOrder()
    ensures IsHashOrder(AllDeckCards)
  {
    DeclarationOrder();
    forall i, j | 0 <= i < j < |AllDeckCards| ensures AllDeckCards[i] != AllDeckCards[j] {
      assert Ordinal(AllDeckCards[i]) != Ordinal(AllDeckCards[j]);
    }
    forall d: DeckCard ensures d in AllDeckCards {
      assert AllDeckCards[Ordinal(d)] == d;
    }
  }

  // ---------------------------------------------------------------------
  // Soundness: every combination reported describes the line
  // ---------------------------------------------------------------------

  /** Soundness for a straight line. */
  lemma StraightSound(cards: seq<PlayCard>, order: seq<DeckCard>, high: DeckCard)
    requires IsHashOrder(order) && 3 <= |cards| <= 5 && NoRepeat(cards)
    requires IsStraightTo(cards, high)
    ensures FromVecCards(cards, order).Ok? && Describes(cards, FromVecCards(cards, order).value)
  {
    StraightTable(cards, order, high);
    if IsFlushLine(cards) {
      assert cards[0] in cards;
      assert AllOfSuit(cards, cards[0].suit);
    }
  }

  /** Soundness for a line without a repeated rank and without a straight. */
  lemma NoStraightSound(cards: seq<PlayCard>, order: seq<DeckCard>)
    requires IsHashOrder(order) && 3 <= |cards| <= 5 && NoRepeat(cards)
    requires NoStraight(cards)
    ensures FromVecCards(cards, order).Ok? && Describes(cards, FromVecCards(cards, order).value)
  {
    var top := Highest(cards);
    NoStraightTable(cards, order, top);
    CardRankInLine(cards, top);
    assert FromVecCards(cards, order) == Ok(if IsFlushLine(cards) then Flush(top) else Kicker(top.value));
  }

  /** Soundness for a line without a repeated rank. */
  lemma NoRepeatSound(cards: seq<PlayCard>, order: seq<DeckCard>)
    requires IsHashOrder(order) && 3 <= |cards| <= 5 && NoRepeat(cards)
    ensures FromVecCards(cards, order).Ok? && Describes(cards, FromVecCards(cards, order).value)
  {
    if high :| IsStraightTo(cards, high) {
      StraightSound(cards, order, high);
    } else {
      NoStraightSound(cards, order);
    }
  }

  /** Soundness for a line in which exactly one rank repeats. */
  lemma OneRepeatSound(cards: seq<PlayCard>, order: seq<DeckCard>, k: DeckCard)
    requires IsHashOrder(order) && 3 <= |cards| <= 5
    requires Multiplicity(cards, k) >= 2 && forall d :: d != k ==> Multiplicity(cards, d) <= 1
    ensures FromVecCards(cards, order).Ok? ==> Describes(cards, FromVecCards(cards, order).value)
  {
    OneRepeatTable(cards, order, k);
  }

  /** Soundness for a line in which exactly two ranks repeat. */
  lemma TwoRepeatsSound(cards: seq<PlayCard>, order: seq<DeckCard>, a: DeckCard, b: DeckCard)
    requires IsHashOrder(order) && 3 <= |cards| <= 5
    requires a != b && Multiplicity(cards, a) >= 2 && Multiplicity(cards, b) >= 2
    requires forall d :: d != a && d != b ==> Multiplicity(cards, d) <= 1
    ensures FromVecCards(cards, order).Ok? ==> Describes(cards, FromVecCards(cards, order).value)
  {
    TwoMultiplicitiesFit(cards, a, b);
    OrdinalInjective(a, b);
    TwoRepeatTable(cards, order, a, b);
    TwoRepeatTable(cards, order, b, a);
  }

  /** Every combination the classifier reports describes the line. */
  lemma ClassifierSound(cards: seq<PlayCard>, order: seq<DeckCard>)
    requires IsHashOrder(order)
    ensures FromVecCards(cards, order).Ok? ==> Describes(cards, FromVecCards(cards, order).value)
  {
    if 3 <= |cards| <= 5 {
      var pairs := CalcPairs(cards);
      AtMostTwoRepeatedRanks(cards);
      if |pairs| == 0 {
        assert forall d :: d !in pairs;
        NoRepeatSound(cards, order);
      } else if |pairs| == 1 {
        var k :| k in pairs;
        OnlyKey(pairs, k);
        OneRepeatSound(cards, order, k);
      } else {
        var a :| a in pairs;
        var b := SecondKey(pairs, a);
        OnlyTwoKeys(pairs, a, b);
        TwoRepeatsSound(cards, order, a, b);
      }
    }
  }

  // ---------------------------------------------------------------------
  // Completeness: every combination that describes the line is reported
  // ---------------------------------------------------------------------

  /** Completeness for the combinations of a line without a repeated rank. */
  lemma NoRepeatComplete(cards: seq<PlayCard>, order: seq<DeckCard>, c: Combination)
    requires IsHashOrder(order) && 3 <= |cards| <= 5
    requires c.Kicker? || c.Straight? || c.Flush? || c.StraightFlush? || c.RoyalFlush?
    requires Describes(cards, c)
    ensures FromVecCards(cards, order) == Ok(c)
  {
    match c
    case Kicker(d) =>
      var i :| 0 <= i < |cards| && RanksOf(cards)[i] == d;
      assert IsTopCard(cards, cards[i]);
      NoStraightTable(cards, order, cards[i]);
    case Flush(top) =>
      NoStraightTable(cards, order, top);
    case Straight(h) =>
      StraightHasNoRepeat(cards, h);
      StraightTable(cards, order, h);
    case StraightFlush(top) =>
      StraightHasNoRepeat(cards, top.value);
      StraightTable(cards, order, top.value);
      assert cards[0] in cards;
    case RoyalFlush(s) =>
      StraightHasNoRepeat(cards, Ace);
      StraightTable(cards, order, Ace);
      assert cards[0] in cards;
  }

  /** Completeness for the combinations built on repeated ranks. */
  lemma RepeatComplete(cards: seq<PlayCard>, order: seq<DeckCard>, c: Combination)
    requires IsHashOrder(order) && 3 <= |cards| <= 5
    requires c.Pair? || c.ThreeOfAKind? || c.FourOfAKind? || c.TwoPairs? || c.FullHouse?
    requires Describes(cards, c)
    ensures FromVecCards(cards, order) == Ok(c)
  {
    match c
    case Pair(d) =>
      OneRepeatTable(cards, order, d);
    case ThreeOfAKind(d) =>
      OneRepeatTable(cards, order, d);
    case FourOfAKind(d) =>
      forall e | e != d ensures Multiplicity(cards, e) <= 1 {
        TwoMultiplicitiesFit(cards, d, e);
      }
      OneRepeatTable(cards, order, d);
    case TwoPairs(p1, p2) =>
      forall e | e != p1 && e != p2 ensures Multiplicity(cards, e) <= 1 {
        MultiplicitiesFit(cards, p1, p2, e);
      }
      TwoRepeatTable(cards, order, p1, p2);
    case FullHouse(t, d) =>
      OrdinalInjective(t, d);
      forall e | e != t && e != d ensures Multiplicity(cards, e) <= 1 {
        MultiplicitiesFit(cards, t, d, e);
      }
      TwoRepeatTable(cards, order, t, d);
  }

  /** Every combination that describes a line of three to five cards is the one reported. */
  lemma ClassifierComplete(cards: seq<PlayCard>, order: seq<DeckCard>, c: Combination)
    requires IsHashOrder(order) && 3 <= |cards| <= 5
    requires Describes(cards, c)
    ensures FromVecCards(cards, order) == Ok(c)
  {
    if c.Pair? || c.ThreeOfAKind? || c.FourOfAKind? || c.TwoPairs? || c.FullHouse? {
      RepeatComplete(cards, order, c);
    } else {
      NoRepeatComplete(cards, order, c);
    }
  }

  // ---------------------------------------------------------------------
  // Results are taken from the line
  // ---------------------------------------------------------------------

  /** Every rank, card and suit the combination carries comes from the line. */
  ghost predicate TakenFromLine(cards: seq<PlayCard>, c: Combination)
  {
    match c
    case TwoPairs(p1, p2) => p1 in RanksOf(cards) && p2 in RanksOf(cards)
    case FullHouse(t, d) => t in RanksOf(cards) && d in RanksOf(cards)
    case Flush(top) => top in cards
    case StraightFlush(top) => top in cards
    case RoyalFlush(s) => exists x :: x in cards && x.suit == s
    case _ => c.rank in RanksOf(cards)
  }

  /** A rank held by some card is a rank of the line. */
  lemma HeldRankInLine(cards: seq<PlayCard>, d: DeckCard)
    requires Multiplicity(cards, d) > 0
    ensures d in RanksOf(cards)
  {
    assert d in multiset(RanksOf(cards));
  }

  /** The top of a straight is a rank of the line. */
  lemma StraightTopInLine(cards: seq<PlayCard>, high: DeckCard)
    requires IsStraightTo(cards, high)
    ensures high in RanksOf(cards)
  {
    if high == Five && multiset(RanksOf(cards)) == multiset{Two, Three, Four, Five, Ace} {
      assert Multiplicity(cards, Five) > 0;
    } else {
      RunToIsRising(high);
      assert high in multiset(RunTo(high));
      assert Multiplicity(cards, high) > 0;
    }
    HeldRankInLine(cards, high);
  }

  /** The top card of a straight flush is a card of the line. */
  lemma StraightFlushTopInLine(cards: seq<PlayCard>, top: PlayCard)
    requires IsStraightTo(cards, top.value) && AllOfSuit(cards, top.suit)
    ensures top in cards
  {
    StraightTopInLine(cards, top.value);
    var i :| 0 <= i < |cards| && RanksOf(cards)[i] == top.value;
    assert cards[i] in cards;
  }

  /** What describes a line of three to five cards is taken from it. */
  lemma DescribedTakenFromLine(cards: seq<PlayCard>, c: Combination)
    requires 3 <= |cards| <= 5 && Describes(cards, c)
    ensures TakenFromLine(cards, c)
  {
    match c
    case Kicker(d) =>
    case Pair(d) => HeldRankInLine(cards, d);
    case ThreeOfAKind(d) => HeldRankInLine(cards, d);
    case FourOfAKind(d) => HeldRankInLine(cards, d);
    case TwoPairs(p1, p2) =>
      HeldRankInLine(cards, p1);
      HeldRankInLine(cards, p2);
    case FullHouse(t, d) =>
      HeldRankInLine(cards, t);
      HeldRankInLine(cards, d);
    case Straight(h) => StraightTopInLine(cards, h);
    case Flush(top) =>
    case StraightFlush(top) => StraightFlushTopInLine(cards, top);
    case RoyalFlush(s) => assert cards[0] in cards;
  }

  /** Every rank, card and suit of a reported combination occurs in the line. */
  lemma ResultTakenFromLine(cards: seq<PlayCard>, order: seq<DeckCard>)
    requires IsHashOrder(order)
    ensures FromVecCards(cards, order).Ok? ==> TakenFromLine(cards, FromVecCards(cards, order).value)
  {
    ClassifierSound(cards, order);
    if FromVecCards(cards, order).Ok? {
      DescribedTakenFromLine(cards, FromVecCards(cards, order).value);
    }
  }

  /** A line of three to five cards is described by at most one combination. */
  lemma DescriptionUnique(cards: seq<PlayCard>, c1: Combination, c2: Combination)
    requires 3 <= |cards| <= 5 && Describes(cards, c1) && Describes(cards, c2)
    ensures c1 == c2
  {
    var order := AllDeckCards;
    DeclarationIsHashOrder();
    ClassifierComplete(cards, order, c1);
    ClassifierComplete(cards, order, c2);
  }

  // ---------------------------------------------------------------------
  // Independence from the hash order and from the order of the cards
  // ---------------------------------------------------------------------

  /** A reachable error is fixed by the length of the line. */
  lemma ReachableErrorByLength(a: seq<PlayCard>, b: seq<PlayCard>, e1: ClassifyError, e2: ClassifyError)
    requires |a| == |b| && ReachableError(a, e1) && ReachableError(b, e2)
    ensures e1 == e2
  {
  }

  /** Two lines with the same cards, ranks, straights and flush have the same combinations. */
  lemma DescribesTransfer(a: seq<PlayCard>, b: seq<PlayCard>, c: Combination)
    requires |a| == |b|
    requires forall x :: x in a <==> x in b
    requires forall d :: d in RanksOf(a) <==> d in RanksOf(b)
    requires forall d :: Multiplicity(a, d) == Multiplicity(b, d)
    requires forall h :: IsStraightTo(a, h) <==> IsStraightTo(b, h)
    requires IsFlushLine(a) <==> IsFlushLine(b)
    requires Describes(a, c)
    ensures Describes(b, c)
  {
    match c
    case Kicker(d) =>
      assert TopRank(b, d);
    case Flush(top) =>
      assert IsTopCard(b, top);
    case _ =>
  }

  /** The meaning of a combination is the same for any arrangement of the same cards. */
  lemma DescribesPermuted(a: seq<PlayCard>, b: seq<PlayCard>, c: Combination)
    requires multiset(a) == multiset(b)
    ensures Describes(a, c) <==> Describes(b, c)
  {
    RanksPermuted(a, b);
    assert |a| == |multiset(a)| == |b|;
    forall x ensures x in a <==> x in b {
      assert x in a <==> x in multiset(a);
      assert x in b <==> x in multiset(b);
    }
    forall d ensures d in RanksOf(a) <==> d in RanksOf(b) {
      assert d in RanksOf(a) <==> d in multiset(RanksOf(a));
      assert d in RanksOf(b) <==> d in multiset(RanksOf(b));
    }
    assert forall d :: Multiplicity(a, d) == Multiplicity(b, d);
    assert forall h :: IsStraightTo(a, h) <==> IsStraightTo(b, h);
    assert IsFlushLine(a) <==> IsFlushLine(b);
    if Describes(a, c) {
      DescribesTransfer(a, b, c);
    }
    if Describes(b, c) {
      DescribesTransfer(b, a, c);
    }
  }

  /**
   * The classifier answers the same for any two arrangements of the same
   * cards and any two iteration orders of the pairs table.
   */
  lemma PermutationInvariant(a: seq<PlayCard>, b: seq<PlayCard>, o1: seq<DeckCard>, o2: seq<DeckCard>)
    requires IsHashOrder(o1) && IsHashOrder(o2)
    requires multiset(a) == multiset(b)
    ensures FromVecCards(a, o1) == FromVecCards(b, o2)
  {
    assert |a| == |multiset(a)| == |b|;
    if 3 <= |a| <= 5 {
      ClassifierSound(a, o1);
      ClassifierSound(b, o2);
      var ra, rb := FromVecCards(a, o1), FromVecCards(b, o2);
      if ra.Ok? {
        DescribesPermuted(a, b, ra.value);
        ClassifierComplete(b, o2, ra.value);
      } else if rb.Ok? {
        DescribesPermuted(a, b, rb.value);
        ClassifierComplete(a, o1, rb.value);
      } else {
        ReachableErrors(a, o1);
        ReachableErrors(b, o2);
        ReachableErrorByLength(a, b, ra.error, rb.error);
      }
    }
  }

  /** The iteration order of the pairs table never shows in the answer. */
  lemma OrderIndependent(cards: seq<PlayCard>, o1: seq<DeckCard>, o2: seq<DeckCard>)
    requires IsHashOrder(o1) && IsHashOrder(o2)
    ensures FromVecCards(cards, o1) == FromVecCards(cards, o2)
  {
    PermutationInvariant(cards, cards, o1, o2);
  }
}
