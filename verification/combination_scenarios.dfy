/**
 * The example lines of src/test.rs, each classified for every iteration
 * order of the pairs table. Each result follows from the description of
 * its combination and the completeness of the classifier.
 */
module CombinationScenarios {
  import opened Wrappers
  import opened DeckCards
  import opened Suits
  import opened PlayCards
  import opened Combinations
  import opened CombinationLaws
  import opened CombinationSpec

  /** The ranks of a five-card line, in place. */
  lemma RanksOfFive(a: PlayCard, b: PlayCard, c: PlayCard, d: PlayCard, e: PlayCard)
    ensures RanksOf([a, b, c, d, e]) == [a.value, b.value, c.value, d.value, e.value]
  {
  }

  /** The ranks of a three-card line, in place. */
  lemma RanksOfThree(a: PlayCard, b: PlayCard, c: PlayCard)
    ensures RanksOf([a, b, c]) == [a.value, b.value, c.value]
  {
  }

  /** Five cards of suit s form a line all of suit s. */
  lemma FiveOfSuit(a: PlayCard, b: PlayCard, c: PlayCard, d: PlayCard, e: PlayCard, s: Suit)
    requires a.suit == s && b.suit == s && c.suit == s && d.suit == s && e.suit == s
    ensures AllOfSuit([a, b, c, d, e], s)
  {
  }

  /** Two ranks of a run are at most four ordinals apart. */
  lemma RunSpan(high: DeckCard, x: DeckCard, y: DeckCard)
    requires Ordinal(high) >= 4 && x in RunTo(high) && y in RunTo(high)
    ensures Ordinal(y) - Ordinal(x) <= 4
  {
    var run := RunTo(high);
    var i :| 0 <= i < 5 && run[i] == x;
    var j :| 0 <= j < 5 && run[j] == y;
  }

  /**
   * A five-card line holding two ranks more than four ordinals apart, the
   * higher of them outside the wheel, forms no straight.
   */
  lemma NoStraightBySpan(cards: seq<PlayCard>, x: DeckCard, y: DeckCard)
    requires x in RanksOf(cards) && y in RanksOf(cards)
    requires Ordinal(y) - Ordinal(x) > 4 && y !in Wheel
    ensures NoStraight(cards)
  {
    forall high ensures !IsStraightTo(cards, high) {
      if IsStraightTo(cards, high) {
        assert y in multiset(RanksOf(cards));
        if high == Five && multiset(RanksOf(cards)) == multiset{Two, Three, Four, Five, Ace} {
          assert false;
        } else {
          assert x in multiset(RanksOf(cards));
          assert x in multiset(RunTo(high)) && y in multiset(RunTo(high));
          RunSpan(high, x, y);
          assert false;
        }
      }
    }
  }

  /** A five-card line of one suit is a flush line. */
  lemma OneSuitFlush(cards: seq<PlayCard>, s: Suit)
    requires |cards| == 5 && AllOfSuit(cards, s)
    ensures IsFlushLine(cards)
  {
  }

  /** A five-card line with two suits is not a flush line. */
  lemma TwoSuitsNoFlush(cards: seq<PlayCard>, i: nat, j: nat)
    requires i < |cards| && j < |cards| && cards[i].suit != cards[j].suit
    ensures !IsFlushLine(cards)
  {
    assert cards[i] in cards && cards[j] in cards;
  }

  /** A straight of one suit to a rank below the ace is a straight flush. */
  lemma StraightFlushOf(cards: seq<PlayCard>, order: seq<DeckCard>, high: DeckCard, s: Suit)
    requires IsHashOrder(order) && IsStraightTo(cards, high) && high != Ace && AllOfSuit(cards, s)
    ensures FromVecCards(cards, order) == Ok(StraightFlush(PlayCard(high, s)))
  {
    OneSuitFlush(cards, s);
    ClassifierComplete(cards, order, StraightFlush(PlayCard(high, s)));
  }

  /** A straight of one suit to the ace is a royal flush. */
  lemma RoyalFlushOf(cards: seq<PlayCard>, order: seq<DeckCard>, s: Suit)
    requires IsHashOrder(order) && IsStraightTo(cards, Ace) && AllOfSuit(cards, s)
    ensures FromVecCards(cards, order) == Ok(RoyalFlush(s))
  {
    OneSuitFlush(cards, s);
    ClassifierComplete(cards, order, RoyalFlush(s));
  }

  /** A straight over two suits is a plain straight. */
  lemma StraightOf(cards: seq<PlayCard>, order: seq<DeckCard>, high: DeckCard, i: nat, j: nat)
    requires IsHashOrder(order) && IsStraightTo(cards, high)
    requires i < |cards| && j < |cards| && cards[i].suit != cards[j].suit
    ensures FromVecCards(cards, order) == Ok(Straight(high))
  {
    TwoSuitsNoFlush(cards, i, j);
    ClassifierComplete(cards, order, Straight(high));
  }

  /** Ace, king, queen, jack and ten make a straight to the ace. */
  lemma RunToAce(cards: seq<PlayCard>)
    requires |cards| == 5 && RanksOf(cards) == [Ace, King, Queen, Jack, Ten]
    ensures IsStraightTo(cards, Ace)
  {
    RunToAceRanks();
    assert multiset([Ace, King, Queen, Jack, Ten]) == multiset([Ten, Jack, Queen, King, Ace]);
  }

  /** The run to the ace, rank by rank. */
  lemma RunToAceRanks()
    ensures RunTo(Ace) == [Ten, Jack, Queen, King, Ace]
  {
  }

  /** King, queen, jack, ten and nine make a straight to the king. */
  lemma RunToKing(cards: seq<PlayCard>)
    requires |cards| == 5 && RanksOf(cards) == [King, Queen, Jack, Ten, Nine]
    ensures IsStraightTo(cards, King)
  {
    RunToKingRanks();
    assert multiset([King, Queen, Jack, Ten, Nine]) == multiset([Nine, Ten, Jack, Queen, King]);
  }

  /** The run to the king, rank by rank. */
  lemma RunToKingRanks()
    ensures RunTo(King) == [Nine, Ten, Jack, Queen, King]
  {
  }

  /** The five-card kicker line of src/test.rs. */
  const KickerFive := [PlayCard(Eight, Clubs), PlayCard(Three, Spades), PlayCard(King, Hearts), PlayCard(Two, Hearts), PlayCard(Five, Hearts)]

  /** The flush line of src/test.rs. */
  const HeartsFlush := [PlayCard(King, Hearts), PlayCard(Jack, Hearts), PlayCard(Ten, Hearts), PlayCard(Eight, Hearts), PlayCard(Five, Hearts)]

  /** The kicker line repeats no rank. */
  lemma KickerNoRepeat()
    ensures NoRepeat(KickerFive)
  {
    var ranks := [Eight, Three, King, Two, Five];
    RanksOfFive(PlayCard(Eight, Clubs), PlayCard(Three, Spades), PlayCard(King, Hearts), PlayCard(Two, Hearts), PlayCard(Five, Hearts));
    assert Collection.NoDuplicates(ranks);
    RanksOfDistinctList(KickerFive, ranks);
  }

  /** The kicker line forms no straight: the two and the king are too far apart. */
  lemma KickerNoStraight()
    ensures NoStraight(KickerFive)
  {
    RanksOfFive(PlayCard(Eight, Clubs), PlayCard(Three, Spades), PlayCard(King, Hearts), PlayCard(Two, Hearts), PlayCard(Five, Hearts));
    NoStraightBySpan(KickerFive, Two, King);
  }

  /** A five-card line none of whose ranks is above top, one of them top, is topped by top. */
  lemma TopRankOfFive(a: PlayCard, b: PlayCard, c: PlayCard, d: PlayCard, e: PlayCard, top: DeckCard)
    requires Ordinal(a.value) <= Ordinal(top) && Ordinal(b.value) <= Ordinal(top) && Ordinal(c.value) <= Ordinal(top)
    requires Ordinal(d.value) <= Ordinal(top) && Ordinal(e.value) <= Ordinal(top)
    requires top == a.value || top == b.value || top == c.value || top == d.value || top == e.value
    ensures TopRank([a, b, c, d, e], top)
  {
    RanksOfFive(a, b, c, d, e);
  }

  /** The kicker line mixes suits and is topped by the king. */
  lemma KickerTop()
    ensures !IsFlushLine(KickerFive) && TopRank(KickerFive, King)
  {
    TwoSuitsNoFlush(KickerFive, 0, 1);
    TopRankOfFive(PlayCard(Eight, Clubs), PlayCard(Three, Spades), PlayCard(King, Hearts), PlayCard(Two, Hearts), PlayCard(Five, Hearts), King);
  }

  /** The flush line repeats no rank. */
  lemma FlushNoRepeat()
    ensures NoRepeat(HeartsFlush)
  {
    var ranks := [King, Jack, Ten, Eight, Five];
    RanksOfFive(PlayCard(King, Hearts), PlayCard(Jack, Hearts), PlayCard(Ten, Hearts), PlayCard(Eight, Hearts), PlayCard(Five, Hearts));
    assert Collection.NoDuplicates(ranks);
    RanksOfDistinctList(HeartsFlush, ranks);
  }

  /** The flush line forms no straight: the five and the king are too far apart. */
  lemma FlushNoStraight()
    ensures NoStraight(HeartsFlush)
  {
    RanksOfFive(PlayCard(King, Hearts), PlayCard(Jack, Hearts), PlayCard(Ten, Hearts), PlayCard(Eight, Hearts), PlayCard(Five, Hearts));
    NoStraightBySpan(HeartsFlush, Five, King);
  }

  /** The flush line is all hearts and topped by the king of hearts. */
  lemma FlushTop()
    ensures IsFlushLine(HeartsFlush) && IsTopCard(HeartsFlush, PlayCard(King, Hearts))
  {
    FiveOfSuit(PlayCard(King, Hearts), PlayCard(Jack, Hearts), PlayCard(Ten, Hearts), PlayCard(Eight, Hearts), PlayCard(Five, Hearts), Hearts);
    OneSuitFlush(HeartsFlush, Hearts);
  }

  /** King, queen, jack, ten and nine, in that order, make a straight to the king. */
  lemma KingRunOfFive(a: PlayCard, b: PlayCard, c: PlayCard, d: PlayCard, e: PlayCard)
    requires a.value == King && b.value == Queen && c.value == Jack && d.value == Ten && e.value == Nine
    ensures IsStraightTo([a, b, c, d, e], King)
  {
    RanksOfFive(a, b, c, d, e);
    RunToKing([a, b, c, d, e]);
  }

  /** The straight line of src/test.rs. */
  const MixedRun := [PlayCard(King, Hearts), PlayCard(Queen, Spades), PlayCard(Jack, Hearts), PlayCard(Ten, Hearts), PlayCard(Nine, Hearts)]

  /** The straight line runs from the nine to the king. */
  lemma MixedRunStraight()
    ensures IsStraightTo(MixedRun, King)
  {
    KingRunOfFive(PlayCard(King, Hearts), PlayCard(Queen, Spades), PlayCard(Jack, Hearts), PlayCard(Ten, Hearts), PlayCard(Nine, Hearts));
  }

  /** The straight line mixes hearts and spades. */
  lemma MixedRunSuits()
    ensures !IsFlushLine(MixedRun)
  {
    TwoSuitsNoFlush(MixedRun, 0, 1);
  }

  /** Five ranks forming the wheel make a straight to the five. */
  lemma WheelLine(cards: seq<PlayCard>, ranks: seq<DeckCard>)
    requires |cards| == 5 && RanksOf(cards) == ranks
    requires multiset(ranks) == multiset{Two, Three, Four, Five, Ace}
    ensures IsStraightTo(cards, Five)
  {
  }

  /** src/test.rs, royal_flush: ace to ten of spades. */
  lemma RoyalFlushLine(order: seq<DeckCard>)
    requires IsHashOrder(order)
    ensures FromVecCards([PlayCard(Ace, Spades), PlayCard(King, Spades), PlayCard(Queen, Spades), PlayCard(Jack, Spades),
                          PlayCard(Ten, Spades)], order) == Ok(RoyalFlush(Spades))
  {
    var cards := [PlayCard(Ace, Spades), PlayCard(King, Spades), PlayCard(Queen, Spades), PlayCard(Jack, Spades), PlayCard(Ten, Spades)];
    RanksOfFive(PlayCard(Ace, Spades), PlayCard(King, Spades), PlayCard(Queen, Spades), PlayCard(Jack, Spades), PlayCard(Ten, Spades));
    RunToAce(cards);
    FiveOfSuit(PlayCard(Ace, Spades), PlayCard(King, Spades), PlayCard(Queen, Spades), PlayCard(Jack, Spades), PlayCard(Ten, Spades), Spades);
    RoyalFlushOf(cards, order, Spades);
  }

  /** src/test.rs, straight_flush: king to nine of spades. */
  lemma StraightFlushLine(order: seq<DeckCard>)
    requires IsHashOrder(order)
    ensures FromVecCards([PlayCard(King, Spades), PlayCard(Queen, Spades), PlayCard(Jack, Spades), PlayCard(Ten, Spades),
                          PlayCard(Nine, Spades)], order) == Ok(StraightFlush(PlayCard(King, Spades)))
  {
    var cards := [PlayCard(King, Spades), PlayCard(Queen, Spades), PlayCard(Jack, Spades), PlayCard(Ten, Spades), PlayCard(Nine, Spades)];
    RanksOfFive(PlayCard(King, Spades), PlayCard(Queen, Spades), PlayCard(Jack, Spades), PlayCard(Ten, Spades), PlayCard(Nine, Spades));
    RunToKing(cards);
    FiveOfSuit(PlayCard(King, Spades), PlayCard(Queen, Spades), PlayCard(Jack, Spades), PlayCard(Ten, Spades), PlayCard(Nine, Spades), Spades);
    StraightFlushOf(cards, order, King, Spades);
  }

  /** src/test.rs, straight_flush_wheel: the wheel in spades is a straight flush to the five. */
  lemma StraightFlushWheelLine(order: seq<DeckCard>)
    requires IsHashOrder(order)
    ensures FromVecCards([PlayCard(Two, Spades), PlayCard(Four, Spades), PlayCard(Three, Spades), PlayCard(Five, Spades),
                          PlayCard(Ace, Spades)], order) == Ok(StraightFlush(PlayCard(Five, Spades)))
  {
    var cards := [PlayCard(Two, Spades), PlayCard(Four, Spades), PlayCard(Three, Spades), PlayCard(Five, Spades), PlayCard(Ace, Spades)];
    var ranks := [Two, Four, Three, Five, Ace];
    RanksOfFive(PlayCard(Two, Spades), PlayCard(Four, Spades), PlayCard(Three, Spades), PlayCard(Five, Spades), PlayCard(Ace, Spades));
    WheelLine(cards, ranks);
    FiveOfSuit(PlayCard(Two, Spades), PlayCard(Four, Spades), PlayCard(Three, Spades), PlayCard(Five, Spades), PlayCard(Ace, Spades), Spades);
    StraightFlushOf(cards, order, Five, Spades);
  }

  /** src/test.rs, four_of_a_kind: four kings and an ace. */
  lemma FourOfAKindLine(order: seq<DeckCard>)
    requires IsHashOrder(order)
    ensures FromVecCards([PlayCard(King, Hearts), PlayCard(King, Diamonds), PlayCard(King, Clubs), PlayCard(King, Spades),
                          PlayCard(Ace, Spades)], order) == Ok(FourOfAKind(King))
  {
    var cards := [PlayCard(King, Hearts), PlayCard(King, Diamonds), PlayCard(King, Clubs), PlayCard(King, Spades), PlayCard(Ace, Spades)];
    RanksOfFive(PlayCard(King, Hearts), PlayCard(King, Diamonds), PlayCard(King, Clubs), PlayCard(King, Spades), PlayCard(Ace, Spades));
    assert Multiplicity(cards, King) == 4;
    ClassifierComplete(cards, order, FourOfAKind(King));
  }

  /** src/test.rs, full_house: three kings and two aces. */
  lemma FullHouseLine(order: seq<DeckCard>)
    requires IsHashOrder(order)
    ensures FromVecCards([PlayCard(King, Hearts), PlayCard(King, Diamonds), PlayCard(King, Clubs), PlayCard(Ace, Clubs),
                          PlayCard(Ace, Spades)], order) == Ok(FullHouse(King, Ace))
  {
    var cards := [PlayCard(King, Hearts), PlayCard(King, Diamonds), PlayCard(King, Clubs), PlayCard(Ace, Clubs), PlayCard(Ace, Spades)];
    RanksOfFive(PlayCard(King, Hearts), PlayCard(King, Diamonds), PlayCard(King, Clubs), PlayCard(Ace, Clubs), PlayCard(Ace, Spades));
    assert Multiplicity(cards, King) == 3 && Multiplicity(cards, Ace) == 2;
    ClassifierComplete(cards, order, FullHouse(King, Ace));
  }

  /** src/test.rs, flush: five hearts without a run, topped by the king. */
  lemma FlushLine(order: seq<DeckCard>)
    requires IsHashOrder(order)
    ensures FromVecCards([PlayCard(King, Hearts), PlayCard(Jack, Hearts), PlayCard(Ten, Hearts), PlayCard(Eight, Hearts),
                          PlayCard(Five, Hearts)], order) == Ok(Flush(PlayCard(King, Hearts)))
  {
    FlushNoRepeat();
    FlushNoStraight();
    FlushTop();
    ClassifierComplete(HeartsFlush, order, Flush(PlayCard(King, Hearts)));
  }

  /** src/test.rs, straight: king to nine in mixed suits. */
  lemma StraightLine(order: seq<DeckCard>)
    requires IsHashOrder(order)
    ensures FromVecCards([PlayCard(King, Hearts), PlayCard(Queen, Spades), PlayCard(Jack, Hearts), PlayCard(Ten, Hearts),
                          PlayCard(Nine, Hearts)], order) == Ok(Straight(King))
  {
    MixedRunStraight();
    MixedRunSuits();
    ClassifierComplete(MixedRun, order, Straight(King));
  }

  /** src/test.rs, straight_wheel: ace to five in mixed suits is a straight to the five. */
  lemma StraightWheelLine(order: seq<DeckCard>)
    requires IsHashOrder(order)
    ensures FromVecCards([PlayCard(Two, Spades), PlayCard(Four, Spades), PlayCard(Three, Clubs), PlayCard(Five, Spades),
                          PlayCard(Ace, Spades)], order) == Ok(Straight(Five))
  {
    var cards := [PlayCard(Two, Spades), PlayCard(Four, Spades), PlayCard(Three, Clubs), PlayCard(Five, Spades), PlayCard(Ace, Spades)];
    var ranks := [Two, Four, Three, Five, Ace];
    RanksOfFive(PlayCard(Two, Spades), PlayCard(Four, Spades), PlayCard(Three, Clubs), PlayCard(Five, Spades), PlayCard(Ace, Spades));
    WheelLine(cards, ranks);
    StraightOf(cards, order, Five, 0, 2);
  }

  /** src/test.rs, three_of_a_kind_5: three twos on a five-card line. */
  lemma ThreeOfAKindFiveLine(order: seq<DeckCard>)
    requires IsHashOrder(order)
    ensures FromVecCards([PlayCard(Two, Spades), PlayCard(Two, Hearts), PlayCard(Two, Clubs), PlayCard(Five, Spades),
                          PlayCard(Ace, Spades)], order) == Ok(ThreeOfAKind(Two))
  {
    var cards := [PlayCard(Two, Spades), PlayCard(Two, Hearts), PlayCard(Two, Clubs), PlayCard(Five, Spades), PlayCard(Ace, Spades)];
    RanksOfFive(PlayCard(Two, Spades), PlayCard(Two, Hearts), PlayCard(Two, Clubs), PlayCard(Five, Spades), PlayCard(Ace, Spades));
    ClassifierComplete(cards, order, ThreeOfAKind(Two));
  }

  /** src/test.rs, three_of_a_kind_3: three fours on a three-card line. */
  lemma ThreeOfAKindThreeLine(order: seq<DeckCard>)
    requires IsHashOrder(order)
    ensures FromVecCards([PlayCard(Four, Spades), PlayCard(Four, Hearts), PlayCard(Four, Clubs)], order) == Ok(ThreeOfAKind(Four))
  {
    var cards := [PlayCard(Four, Spades), PlayCard(Four, Hearts), PlayCard(Four, Clubs)];
    RanksOfThree(PlayCard(Four, Spades), PlayCard(Four, Hearts), PlayCard(Four, Clubs));
    ClassifierComplete(cards, order, ThreeOfAKind(Four));
  }

  /** src/test.rs, two_pairs: jacks and sevens, the jacks named first. */
  lemma TwoPairsLine(order: seq<DeckCard>)
    requires IsHashOrder(order)
    ensures FromVecCards([PlayCard(Seven, Spades), PlayCard(Jack, Hearts), PlayCard(Seven, Clubs), PlayCard(Jack, Spades),
                          PlayCard(Ace, Spades)], order) == Ok(TwoPairs(Jack, Seven))
  {
    var cards := [PlayCard(Seven, Spades), PlayCard(Jack, Hearts), PlayCard(Seven, Clubs), PlayCard(Jack, Spades), PlayCard(Ace, Spades)];
    RanksOfFive(PlayCard(Seven, Spades), PlayCard(Jack, Hearts), PlayCard(Seven, Clubs), PlayCard(Jack, Spades), PlayCard(Ace, Spades));
    assert Multiplicity(cards, Jack) == 2 && Multiplicity(cards, Seven) == 2;
    ClassifierComplete(cards, order, TwoPairs(Jack, Seven));
  }

  /** src/test.rs, pair_5: a pair of jacks on a five-card line. */
  lemma PairFiveLine(order: seq<DeckCard>)
    requires IsHashOrder(order)
    ensures FromVecCards([PlayCard(Seven, Spades), PlayCard(Jack, Hearts), PlayCard(Eight, Clubs), PlayCard(Jack, Spades),
                          PlayCard(Ace, Spades)], order) == Ok(Pair(Jack))
  {
    var cards := [PlayCard(Seven, Spades), PlayCard(Jack, Hearts), PlayCard(Eight, Clubs), PlayCard(Jack, Spades), PlayCard(Ace, Spades)];
    RanksOfFive(PlayCard(Seven, Spades), PlayCard(Jack, Hearts), PlayCard(Eight, Clubs), PlayCard(Jack, Spades), PlayCard(Ace, Spades));
    ClassifierComplete(cards, order, Pair(Jack));
  }

  /** src/test.rs, pair_3: a pair of aces on a three-card line. */
  lemma PairThreeLine(order: seq<DeckCard>)
    requires IsHashOrder(order)
    ensures FromVecCards([PlayCard(Eight, Clubs), PlayCard(Ace, Spades), PlayCard(Ace, Hearts)], order) == Ok(Pair(Ace))
  {
    var cards := [PlayCard(Eight, Clubs), PlayCard(Ace, Spades), PlayCard(Ace, Hearts)];
    RanksOfThree(PlayCard(Eight, Clubs), PlayCard(Ace, Spades), PlayCard(Ace, Hearts));
    ClassifierComplete(cards, order, Pair(Ace));
  }

  /** src/test.rs, kicker_5: nothing on five cards, the king highest. */
  lemma KickerFiveLine(order: seq<DeckCard>)
    requires IsHashOrder(order)
    ensures FromVecCards([PlayCard(Eight, Clubs), PlayCard(Three, Spades), PlayCard(King, Hearts), PlayCard(Two, Hearts),
                          PlayCard(Five, Hearts)], order) == Ok(Kicker(King))
  {
    KickerNoRepeat();
    KickerNoStraight();
    KickerTop();
    ClassifierComplete(KickerFive, order, Kicker(King));
  }

  /** src/test.rs, kicker_3: nothing on three cards, the eight highest. */
  lemma KickerThreeLine(order: seq<DeckCard>)
    requires IsHashOrder(order)
    ensures FromVecCards([PlayCard(Eight, Clubs), PlayCard(Three, Spades), PlayCard(Five, Hearts)], order) == Ok(Kicker(Eight))
  {
    var cards := [PlayCard(Eight, Clubs), PlayCard(Three, Spades), PlayCard(Five, Hearts)];
    var ranks := [Eight, Three, Five];
    RanksOfThree(PlayCard(Eight, Clubs), PlayCard(Three, Spades), PlayCard(Five, Hearts));
    assert Collection.NoDuplicates(ranks);
    RanksOfDistinctList(cards, ranks);
    ClassifierComplete(cards, order, Kicker(Eight));
  }
}
