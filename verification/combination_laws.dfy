/**
 * Properties of the classifier of src/poker/combination.rs: the straight
 * test against its independent definition, the decision table over rank
 * multiplicities, and the error branches no line can reach.
 */
module CombinationLaws {
  import opened Wrappers
  import opened DeckCards
  import opened Suits
  import opened PlayCards
  import opened RankSort
  import opened Collection
  import opened Combinations

  // ---------------------------------------------------------------------
  // Counting ranks
  // ---------------------------------------------------------------------

  /** The cards of rank d are the cards (d, s) for the four suits s. */
  lemma {:induction false} MultiplicityBySuit(cards: seq<PlayCard>, d: DeckCard)
    ensures Multiplicity(cards, d) ==
              multiset(cards)[PlayCard(d, Hearts)] + multiset(cards)[PlayCard(d, Diamonds)]
              + multiset(cards)[PlayCard(d, Clubs)] + multiset(cards)[PlayCard(d, Spades)]
    decreases |cards|
  {
    if |cards| > 0 {
      var prefix := cards[..|cards| - 1];
      var last := cards[|cards| - 1];
      assert cards == prefix + [last];
      assert multiset(cards) == multiset(prefix) + multiset{last};
      assert RanksOf(cards) == RanksOf(prefix) + [last.value];
      assert multiset(RanksOf(cards)) == multiset(RanksOf(prefix)) + multiset{last.value};
      MultiplicityBySuit(prefix, d);
      var m, mp := multiset(cards), multiset(prefix);
      if last.value == d {
        match last.suit
        case Hearts => assert last == PlayCard(d, Hearts);
        case Diamonds => assert last == PlayCard(d, Diamonds);
        case Clubs => assert last == PlayCard(d, Clubs);
        case Spades => assert last == PlayCard(d, Spades);
      } else {
        assert m[PlayCard(d, Hearts)] == mp[PlayCard(d, Hearts)];
        assert m[PlayCard(d, Diamonds)] == mp[PlayCard(d, Diamonds)];
        assert m[PlayCard(d, Clubs)] == mp[PlayCard(d, Clubs)];
        assert m[PlayCard(d, Spades)] == mp[PlayCard(d, Spades)];
      }
    }
  }

  /** Three distinct ranks together hold at most as many cards as the line. */
  lemma {:induction false} MultiplicitiesFit(cards: seq<PlayCard>, a: DeckCard, b: DeckCard, c: DeckCard)
    requires a != b && b != c && a != c
    ensures Multiplicity(cards, a) + Multiplicity(cards, b) + Multiplicity(cards, c) <= |cards|
    decreases |cards|
  {
    if |cards| > 0 {
      var prefix := cards[..|cards| - 1];
      var last := cards[|cards| - 1];
      assert RanksOf(cards) == RanksOf(prefix) + [last.value];
      assert multiset(RanksOf(cards)) == multiset(RanksOf(prefix)) + multiset{last.value};
      MultiplicitiesFit(prefix, a, b, c);
    }
  }

  /** A rank other than a and b. */
  function OtherRank(a: DeckCard, b: DeckCard): (c: DeckCard)
    ensures c != a && c != b
  {
    if a != Two && b != Two then Two
    else if a != Three && b != Three then Three
    else Four
  }

  /** Two distinct ranks together hold at most as many cards as the line. */
  lemma TwoMultiplicitiesFit(cards: seq<PlayCard>, a: DeckCard, b: DeckCard)
    requires a != b
    ensures Multiplicity(cards, a) + Multiplicity(cards, b) <= |cards|
  {
    MultiplicitiesFit(cards, a, b, OtherRank(a, b));
  }

  /** No rank is held by more cards than the line has. */
  lemma MultiplicityFits(cards: seq<PlayCard>, a: DeckCard)
    ensures Multiplicity(cards, a) <= |cards|
  {
    TwoMultiplicitiesFit(cards, a, OtherRank(a, a));
  }

  /** Rearranging the line does not change how many cards hold each rank. */
  lemma RanksPermuted(a: seq<PlayCard>, b: seq<PlayCard>)
    requires multiset(a) == multiset(b)
    ensures multiset(RanksOf(a)) == multiset(RanksOf(b))
  {
    forall d ensures multiset(RanksOf(a))[d] == multiset(RanksOf(b))[d] {
      MultiplicityBySuit(a, d);
      MultiplicityBySuit(b, d);
    }
  }

  /** Two different cards of the same rank make that rank repeat. */
  lemma TwoCardsOfRank(cards: seq<PlayCard>, c1: PlayCard, c2: PlayCard)
    requires c1 in cards && c2 in cards && c1.value == c2.value && c1 != c2
    ensures Multiplicity(cards, c1.value) >= 2
  {
    SameRankCounts(cards, c1, c2);
    assert multiset(cards)[c1] >= 1 && multiset(cards)[c2] >= 1;
  }

  /** Two different cards of one rank are counted separately among the cards of that rank. */
  lemma {:induction false} SameRankCounts(cards: seq<PlayCard>, c1: PlayCard, c2: PlayCard)
    requires c1.value == c2.value && c1 != c2
    ensures multiset(cards)[c1] + multiset(cards)[c2] <= Multiplicity(cards, c1.value)
    decreases |cards|
  {
    if |cards| > 0 {
      var prefix := cards[..|cards| - 1];
      var last := cards[|cards| - 1];
      assert cards == prefix + [last];
      assert multiset(cards) == multiset(prefix) + multiset{last};
      assert RanksOf(cards) == RanksOf(prefix) + [last.value];
      assert multiset(RanksOf(cards)) == multiset(RanksOf(prefix)) + multiset{last.value};
      SameRankCounts(prefix, c1, c2);
    }
  }

  /** In a line without a repeated rank, two of its cards with the same rank are the same card. */
  lemma SameRankSameCard(cards: seq<PlayCard>, c1: PlayCard, c2: PlayCard)
    requires forall d :: Multiplicity(cards, d) <= 1
    requires c1 in cards && c2 in cards && c1.value == c2.value
    ensures c1 == c2
  {
    if c1 != c2 {
      TwoCardsOfRank(cards, c1, c2);
    }
  }

  /** In a line without a repeated rank the top card is unique, whichever one `calc_highest_card` picks. */
  lemma TopCardUnique(cards: seq<PlayCard>, c1: PlayCard, c2: PlayCard)
    requires forall d :: Multiplicity(cards, d) <= 1
    requires IsTopCard(cards, c1) && IsTopCard(cards, c2)
    ensures c1 == c2
  {
    OrdinalInjective(c1.value, c2.value);
    SameRankSameCard(cards, c1, c2);
  }

  // ---------------------------------------------------------------------
  // The straight test
  // ---------------------------------------------------------------------

  /** Five ranks rising by one at every step are the run ending at the last of them. */
  lemma RisingRun(values: seq<DeckCard>)
    requires |values| == 5
    requires forall i :: 0 <= i && i + 1 < |values| ==> Step(values, i) == 1
    ensures Ordinal(values[4]) >= 4 && values == RunTo(values[4])
  {
    assert Step(values, 0) == 1 && Step(values, 1) == 1 && Step(values, 2) == 1 && Step(values, 3) == 1;
    var top := Ordinal(values[4]);
    assert Ordinal(values[3]) == top - 1 && Ordinal(values[2]) == top - 2;
    assert Ordinal(values[1]) == top - 3 && Ordinal(values[0]) == top - 4;
    var run := RunTo(values[4]);
    forall i | 0 <= i < 5 ensures values[i] == run[i] {
      assert Ordinal(values[i]) == top - 4 + i;
      OrdinalInjective(values[i], run[i]);
    }
  }

  /** A run is sorted, rises by one, ends at its top and is not the wheel. */
  lemma RunToIsRising(high: DeckCard)
    requires Ordinal(high) >= 4
    ensures Sorted(RunTo(high))
    ensures forall i :: 0 <= i && i + 1 < 5 ==> Step(RunTo(high), i) == 1
    ensures RunTo(high)[4] == high
    ensures RunTo(high) != Wheel
  {
    var run := RunTo(high);
    OrdinalInjective(run[4], high);
    assert Step(Wheel, 3) != 1;
    assert Step(run, 3) == 1;
  }

  /** No rank of a sorted sequence is above its last. */
  lemma BelowLastRank(values: seq<DeckCard>, d: DeckCard)
    requires Sorted(values) && d in multiset(values)
    ensures Ordinal(d) <= Ordinal(values[|values| - 1])
  {
    var j :| 0 <= j < |values| && values[j] == d;
  }

  /** Every rank of a line is at most the rank of its highest card. */
  lemma BelowHighest(cards: seq<PlayCard>, d: DeckCard)
    requires |cards| > 0 && d in multiset(RanksOf(cards))
    ensures Ordinal(d) <= Ordinal(Highest(cards).value)
  {
    var ranks := RanksOf(cards);
    assert d in ranks;
    var i :| 0 <= i < |ranks| && ranks[i] == d;
    assert cards[i] in cards;
  }

  /** The last of the sorted ranks of a line is the rank of its highest card. */
  lemma HighestTopsSortedRanks(cards: seq<PlayCard>, values: seq<DeckCard>)
    requires |cards| > 0 && Sorted(values)
    requires multiset(values) == multiset(RanksOf(cards))
    ensures |values| == |cards| && Highest(cards).value == values[|values| - 1]
  {
    assert |values| == |multiset(values)| == |RanksOf(cards)|;
    var top := Highest(cards);
    var last := values[|values| - 1];
    CardRankInLine(cards, top);
    BelowLastRank(values, top.value);
    assert last in multiset(values);
    BelowHighest(cards, last);
    OrdinalInjective(top.value, last);
  }

  /** The only sorted arrangement of the wheel's ranks is the wheel. */
  lemma WheelSorted(values: seq<DeckCard>)
    requires Sorted(values) && multiset(values) == multiset{Two, Three, Four, Five, Ace}
    ensures values == Wheel
  {
    assert multiset(Wheel) == multiset{Two, Three, Four, Five, Ace};
    SortedByNeighbours(Wheel);
    SortedUnique(values, Wheel);
  }

  /** When the sorted ranks are the wheel, `check_straight` reports Five. */
  lemma WheelReported(cards: seq<PlayCard>)
    requires |cards| == 5 && SortRanks(RanksOf(cards)) == Wheel
    ensures CheckStraight(cards) == Some(Five)
  {
  }

  /** A five-card line whose sorted ranks are the wheel tops a straight at Five. */
  lemma WheelStraight(cards: seq<PlayCard>)
    requires |cards| == 5
    requires multiset(RanksOf(cards)) == multiset{Two, Three, Four, Five, Ace}
    ensures CheckStraight(cards) == Some(Five)
  {
    WheelSorted(SortRanks(RanksOf(cards)));
    WheelReported(cards);
  }

  /** A five-card line whose ranks are a run is a straight topped by the run's top. */
  lemma RunStraight(cards: seq<PlayCard>, high: DeckCard)
    requires |cards| == 5 && Ordinal(high) >= 4
    requires multiset(RanksOf(cards)) == multiset(RunTo(high))
    ensures CheckStraight(cards) == Some(high)
  {
    var values := SortRanks(RanksOf(cards));
    RunToIsRising(high);
    SortedUnique(values, RunTo(high));
    HighestTopsSortedRanks(cards, values);
    assert ScanSequence(values, 0, true);
  }

  /** Whatever `check_straight` reports is the top of a straight of the line. */
  lemma StraightReported(cards: seq<PlayCard>)
    requires CheckStraight(cards).Some?
    ensures IsStraightTo(cards, CheckStraight(cards).value)
  {
    var values := SortRanks(RanksOf(cards));
    if values == Wheel {
      assert multiset(Wheel) == multiset{Two, Three, Four, Five, Ace};
    } else {
      assert ScanSequence(values, 0, true);
      RisingRun(values);
      HighestTopsSortedRanks(cards, values);
    }
  }

  /**
   * `check_straight` reports `high` exactly when the line is five cards
   * forming a straight topped by `high`: the wheel gives Five, any other
   * straight its highest rank.
   */
  lemma CheckStraightIff(cards: seq<PlayCard>, high: DeckCard)
    ensures CheckStraight(cards) == Some(high) <==> IsStraightTo(cards, high)
  {
    if CheckStraight(cards) == Some(high) {
      StraightReported(cards);
    }
    if IsStraightTo(cards, high) {
      if high == Five && multiset(RanksOf(cards)) == multiset{Two, Three, Four, Five, Ace} {
        WheelStraight(cards);
      } else {
        RunStraight(cards, high);
      }
    }
  }

  /** `check_straight` is None exactly when no rank tops a straight of the line. */
  lemma CheckStraightNone(cards: seq<PlayCard>)
    ensures CheckStraight(cards).None? <==> forall high :: !IsStraightTo(cards, high)
  {
    if CheckStraight(cards).Some? {
      CheckStraightIff(cards, CheckStraight(cards).value);
    } else {
      forall high ensures !IsStraightTo(cards, high) {
        CheckStraightIff(cards, high);
      }
    }
  }

  // ---------------------------------------------------------------------
  // The decision table
  // ---------------------------------------------------------------------

  /** A line of 3 to 5 cards without a repeated rank goes to `sequence_hand`. */
  lemma NoRepeatLine(cards: seq<PlayCard>, order: seq<DeckCard>)
    requires IsHashOrder(order) && 3 <= |cards| <= 5
    requires forall d :: Multiplicity(cards, d) <= 1
    ensures FromVecCards(cards, order) == SequenceHand(cards)
  {
    assert CalcPairs(cards) == map[];
  }

  /** `sequence_hand` on a straight: the flush test decides between straight, straight flush and royal flush. */
  lemma SequenceHandStraight(cards: seq<PlayCard>, high: DeckCard)
    requires CheckStraight(cards) == Some(high)
    ensures SequenceHand(cards) ==
              Ok(if CheckFlush(cards).None? then Straight(high)
                 else if high == Ace then RoyalFlush(CheckFlush(cards).value.suit)
                 else StraightFlush(PlayCard(high, CheckFlush(cards).value.suit)))
  {
  }

  /** The card `check_flush` reports has the suit of every card of the line. */
  lemma FlushSuit(cards: seq<PlayCard>)
    requires IsFlushLine(cards)
    ensures CheckFlush(cards).Some? && CheckFlush(cards).value.suit == cards[0].suit
  {
    var top := CheckFlush(cards).value;
    assert top in cards && cards[0] in cards;
  }

  /**
   * A straight line without a repeated rank: a plain straight, or with one
   * suit a royal flush to the ace and a straight flush below it.
   */
  lemma StraightTable(cards: seq<PlayCard>, order: seq<DeckCard>, high: DeckCard)
    requires IsHashOrder(order) && 3 <= |cards| <= 5
    requires forall d :: Multiplicity(cards, d) <= 1
    requires IsStraightTo(cards, high)
    ensures FromVecCards(cards, order) ==
              Ok(if !IsFlushLine(cards) then Straight(high)
                 else if high == Ace then RoyalFlush(cards[0].suit)
                 else StraightFlush(PlayCard(high, cards[0].suit)))
  {
    NoRepeatLine(cards, order);
    CheckStraightIff(cards, high);
    SequenceHandStraight(cards, high);
    if IsFlushLine(cards) {
      FlushSuit(cards);
    }
  }

  /** A line without a repeated rank and without a straight: a flush or a kicker, named by its top card. */
  lemma NoStraightTable(cards: seq<PlayCard>, order: seq<DeckCard>, c: PlayCard)
    requires IsHashOrder(order) && 3 <= |cards| <= 5
    requires forall d :: Multiplicity(cards, d) <= 1
    requires forall high :: !IsStraightTo(cards, high)
    requires IsTopCard(cards, c)
    ensures FromVecCards(cards, order) == Ok(if IsFlushLine(cards) then Flush(c) else Kicker(c.value))
  {
    NoRepeatLine(cards, order);
    CheckStraightNone(cards);
    assert CheckStraight(cards).None?;
    TopCardUnique(cards, c, Highest(cards));
  }

  /** A line of 3 or 4 cards without a repeated rank is a kicker of its highest rank. */
  lemma ShortLineIsKicker(cards: seq<PlayCard>, order: seq<DeckCard>, c: PlayCard)
    requires IsHashOrder(order) && 3 <= |cards| <= 4
    requires forall d :: Multiplicity(cards, d) <= 1
    requires IsTopCard(cards, c)
    ensures FromVecCards(cards, order) == Ok(Kicker(c.value))
  {
    NoRepeatLine(cards, order);
    var top := Highest(cards);
    assert Ordinal(top.value) == Ordinal(c.value);
    OrdinalInjective(top.value, c.value);
  }

  /** The table of a line keeps the ranks that repeat, so its keys are the given set. */
  lemma PairsKeys(cards: seq<PlayCard>, repeated: set<DeckCard>)
    requires forall d :: d in repeated <==> Multiplicity(cards, d) >= 2
    ensures CalcPairs(cards).Keys == repeated
  {
  }

  /** One key in the table: its counter picks pair, three or four of a kind. */
  lemma SingleKeyHand(pairs: map<DeckCard, nat>, keys: seq<DeckCard>, k: DeckCard, cardsLen: nat)
    requires Enumerates(keys, pairs) && pairs.Keys == {k}
    requires forall d :: d in pairs ==> pairs[d] >= 2
    ensures PairsHand(pairs, keys, cardsLen) == SingleCardPairs(pairs, [k], cardsLen)
  {
    EnumerationLength(keys, pairs);
    assert |pairs| == |pairs.Keys| == 1;
    assert keys[0] in pairs;
  }

  /** Two keys a and b in the table: the keys are listed as a, b or as b, a. */
  lemma TwoKeysListed(pairs: map<DeckCard, nat>, keys: seq<DeckCard>, a: DeckCard, b: DeckCard)
    requires Enumerates(keys, pairs) && pairs.Keys == {a, b} && a != b
    ensures |pairs| == 2 && |keys| == 2
    ensures keys == [a, b] || keys == [b, a]
  {
    EnumerationLength(keys, pairs);
    assert |pairs| == |pairs.Keys| == 2;
    assert keys[0] in pairs && keys[1] in pairs;
  }

  /** Two keys on a line that is not five cards long: an error, whatever the counters. */
  lemma TwoKeysShortLine(pairs: map<DeckCard, nat>, keys: seq<DeckCard>, a: DeckCard, b: DeckCard, cardsLen: nat)
    requires Enumerates(keys, pairs) && pairs.Keys == {a, b} && a != b
    requires forall d :: d in pairs ==> pairs[d] >= 2
    requires cardsLen != 5
    ensures PairsHand(pairs, keys, cardsLen) ==
              Err(if cardsLen == 3 then TwoPairsOnThreeCardLine else WrongNumberOfCards)
  {
    TwoKeysListed(pairs, keys, a, b);
  }

  /** `pairs_hand` hands a table of two keys to `multiple_cards_pairs`. */
  lemma PairsHandTwoKeys(pairs: map<DeckCard, nat>, keys: seq<DeckCard>, cardsLen: nat)
    requires Enumerates(keys, pairs) && |pairs| == 2
    requires forall d :: d in pairs ==> pairs[d] >= 2
    ensures |keys| == 2 && PairsHand(pairs, keys, cardsLen) == MultipleCardsPairs(pairs, keys, cardsLen)
  {
    EnumerationLength(keys, pairs);
  }

  /** Counters adding up to 4 on five cards: two pairs. */
  lemma CounterSumFour(pairs: map<DeckCard, nat>, keys: seq<DeckCard>)
    requires Enumerates(keys, pairs) && |keys| == 2
    requires forall d :: d in pairs ==> pairs[d] >= 2
    requires CounterSum(pairs, keys) == 4
    ensures MultipleCardsPairs(pairs, keys, 5) == Ok(TwoPairsHand(keys))
  {
  }

  /** Two keys counted twice each on five cards: two pairs, the higher rank first. */
  lemma TwoKeysTwoPairs(pairs: map<DeckCard, nat>, keys: seq<DeckCard>, a: DeckCard, b: DeckCard)
    requires Enumerates(keys, pairs) && pairs.Keys == {a, b} && a != b
    requires pairs[a] == 2 && pairs[b] == 2 && Below(b, a)
    ensures PairsHand(pairs, keys, 5) == Ok(TwoPairs(a, b))
  {
    TwoKeysListed(pairs, keys, a, b);
    PairsHandTwoKeys(pairs, keys, 5);
    assert CounterSum(pairs, keys) == 4;
    CounterSumFour(pairs, keys);
    TwoPairsHandPicksHigher(keys, a, b);
  }

  /** `two_pairs` names the higher of two ranks first, in whichever order the keys come. */
  lemma TwoPairsHandPicksHigher(keys: seq<DeckCard>, a: DeckCard, b: DeckCard)
    requires keys == [a, b] || keys == [b, a]
    requires Below(b, a)
    ensures NoDuplicates(keys) && TwoPairsHand(keys) == TwoPairs(a, b)
  {
    TwoKeysDistinct(keys, a, b);
    HigherOfTwo(keys, a, b, TwoPairsHand(keys));
  }

  /** Two different ranks, in either order, list no rank twice and nothing else. */
  lemma TwoKeysDistinct(keys: seq<DeckCard>, a: DeckCard, b: DeckCard)
    requires keys == [a, b] || keys == [b, a]
    requires a != b
    ensures |keys| == 2 && NoDuplicates(keys)
    ensures forall d :: d in keys ==> d == a || d == b
  {
  }

  /** Two ranks of {a, b}, the first strictly above the second, are a then b. */
  lemma HigherOfTwo(keys: seq<DeckCard>, a: DeckCard, b: DeckCard, r: Combination)
    requires forall d :: d in keys ==> d == a || d == b
    requires Below(b, a)
    requires r.TwoPairs? && r.pair1 in keys && r.pair2 in keys && Below(r.pair2, r.pair1)
    ensures r == TwoPairs(a, b)
  {
  }

  /** Keys counted three and two times on five cards: a full house, the triple first. */
  lemma TwoKeysFullHouse(pairs: map<DeckCard, nat>, keys: seq<DeckCard>, a: DeckCard, b: DeckCard)
    requires Enumerates(keys, pairs) && pairs.Keys == {a, b} && a != b
    requires pairs[a] == 3 && pairs[b] == 2
    ensures PairsHand(pairs, keys, 5) == Ok(FullHouse(a, b))
  {
    TwoKeysListed(pairs, keys, a, b);
    PairsHandTwoKeys(pairs, keys, 5);
    assert CounterSum(pairs, keys) == 5;
    TwoKeysLookup(pairs, keys, a, b);
  }

  /** Of two keys with different counters, each counter is looked up to its own key. */
  lemma TwoKeysLookup(pairs: map<DeckCard, nat>, keys: seq<DeckCard>, a: DeckCard, b: DeckCard)
    requires Enumerates(keys, pairs) && pairs.Keys == {a, b} && pairs[a] != pairs[b]
    ensures GetKeyByValue(pairs, keys, pairs[a]) == Some(a)
    ensures GetKeyByValue(pairs, keys, pairs[b]) == Some(b)
  {
  }

  /** A line of 3 to 5 cards with a repeated rank is classified from its table. */
  lemma FromVecCardsWithPairs(cards: seq<PlayCard>, order: seq<DeckCard>)
    requires IsHashOrder(order) && 3 <= |cards| <= 5
    requires |CalcPairs(cards)| > 0
    ensures Enumerates(Iteration(CalcPairs(cards), order), CalcPairs(cards))
    ensures FromVecCards(cards, order) ==
              PairsHand(CalcPairs(cards), Iteration(CalcPairs(cards), order), |cards|)
  {
    IterationEnumerates(CalcPairs(cards), order);
  }

  /**
   * A line in which exactly one rank k repeats: pair, three of a kind, or
   * four of a kind on a five-card line; errors otherwise.
   */
  lemma OneRepeatTable(cards: seq<PlayCard>, order: seq<DeckCard>, k: DeckCard)
    requires IsHashOrder(order) && 3 <= |cards| <= 5
    requires Multiplicity(cards, k) >= 2
    requires forall d :: d != k ==> Multiplicity(cards, d) <= 1
    ensures FromVecCards(cards, order) ==
              match Multiplicity(cards, k)
              case 2 => Ok(Pair(k))
              case 3 => Ok(ThreeOfAKind(k))
              case 4 =>
                if |cards| == 5 then Ok(FourOfAKind(k))
                else if |cards| == 3 then Err(FourOfAKindOnThreeCardLine)
                else Err(WrongNumberOfCards)
              case _ => Err(InvalidPairCounter)
  {
    var pairs := CalcPairs(cards);
    PairsKeys(cards, {k});
    assert |pairs| == |pairs.Keys| == 1;
    FromVecCardsWithPairs(cards, order);
    SingleKeyHand(pairs, Iteration(pairs, order), k, |cards|);
  }

  /**
   * A line in which exactly two ranks a and b repeat: two pairs (the higher
   * rank first) or a full house (the triple first) on five cards; errors on
   * shorter lines.
   */
  lemma TwoRepeatTable(cards: seq<PlayCard>, order: seq<DeckCard>, a: DeckCard, b: DeckCard)
    requires IsHashOrder(order) && 3 <= |cards| <= 5
    requires a != b && Multiplicity(cards, a) >= 2 && Multiplicity(cards, b) >= 2
    requires forall d :: d != a && d != b ==> Multiplicity(cards, d) <= 1
    ensures |cards| == 3 ==> FromVecCards(cards, order) == Err(TwoPairsOnThreeCardLine)
    ensures |cards| == 4 ==> FromVecCards(cards, order) == Err(WrongNumberOfCards)
    ensures |cards| == 5 && Multiplicity(cards, a) == 2 && Multiplicity(cards, b) == 2 && Below(b, a) ==>
              FromVecCards(cards, order) == Ok(TwoPairs(a, b))
    ensures |cards| == 5 && Multiplicity(cards, a) == 3 && Multiplicity(cards, b) == 2 ==>
              FromVecCards(cards, order) == Ok(FullHouse(a, b))
  {
    var pairs := CalcPairs(cards);
    PairsKeys(cards, {a, b});
    assert |pairs| == |pairs.Keys| == 2;
    FromVecCardsWithPairs(cards, order);
    var keys := Iteration(pairs, order);
    if |cards| != 5 {
      TwoKeysShortLine(pairs, keys, a, b, |cards|);
    } else if pairs[a] == 2 && pairs[b] == 2 && Below(b, a) {
      TwoKeysTwoPairs(pairs, keys, a, b);
    } else if pairs[a] == 3 && pairs[b] == 2 {
      TwoKeysFullHouse(pairs, keys, a, b);
    }
  }

  /** On at most five cards no more than two ranks repeat, so `pairs_hand`'s last branch is dead. */
  lemma AtMostTwoRepeatedRanks(cards: seq<PlayCard>)
    requires |cards| <= 5
    ensures |CalcPairs(cards)| <= 2
  {
    var keys := CalcPairs(cards).Keys;
    assert |keys| == |CalcPairs(cards)|;
    if |keys| >= 3 {
      var a :| a in keys;
      var keys1 := keys - {a};
      assert |keys1| == |keys| - 1;
      var b :| b in keys1;
      var keys2 := keys1 - {b};
      assert |keys2| == |keys1| - 1;
      var c :| c in keys2;
      MultiplicitiesFit(cards, a, b, c);
      assert false;
    }
  }

  /**
   * The errors a line can actually produce: a bad length, a 4-card line
   * with four of a kind or two repeated ranks, or five cards of one rank.
   */
  ghost predicate ReachableError(cards: seq<PlayCard>, e: ClassifyError)
  {
    || (e == InvalidNumberOfCards && (|cards| < 3 || |cards| > 5))
    || (e == WrongNumberOfCards && |cards| == 4 &&
        ((exists d :: Multiplicity(cards, d) == 4) || |CalcPairs(cards)| == 2))
    || (e == InvalidPairCounter && |cards| == 5 && exists d :: Multiplicity(cards, d) == 5)
  }

  /** With one repeated rank, only the 4-card four of a kind and five of a kind fail. */
  lemma OneRepeatErrors(cards: seq<PlayCard>, order: seq<DeckCard>)
    requires IsHashOrder(order) && 3 <= |cards| <= 5
    requires |CalcPairs(cards)| == 1
    ensures FromVecCards(cards, order).Err? ==> ReachableError(cards, FromVecCards(cards, order).error)
  {
    var pairs := CalcPairs(cards);
    var k :| k in pairs;
    OnlyKey(pairs, k);
    OneRepeatTable(cards, order, k);
    MultiplicityFits(cards, k);
    var n := Multiplicity(cards, k);
    var r := FromVecCards(cards, order);
    if r.Err? {
      if n == 5 {
        assert r.error == InvalidPairCounter && Multiplicity(cards, k) == 5;
        assert |cards| == 5;
      } else {
        assert n == 4 && r.error == WrongNumberOfCards && |cards| == 4;
      }
    }
  }

  /** Two repeated ranks on five cards always classify: two pairs or a full house. */
  lemma TwoRepeatsOnFive(cards: seq<PlayCard>, order: seq<DeckCard>, a: DeckCard, b: DeckCard)
    requires IsHashOrder(order) && |cards| == 5
    requires a != b && Multiplicity(cards, a) >= 2 && Multiplicity(cards, b) >= 2
    requires forall d :: d != a && d != b ==> Multiplicity(cards, d) <= 1
    ensures FromVecCards(cards, order).Ok?
  {
    TwoMultiplicitiesFit(cards, a, b);
    if Multiplicity(cards, a) == 3 {
      TwoRepeatTable(cards, order, a, b);
    } else if Multiplicity(cards, b) == 3 {
      TwoRepeatTable(cards, order, b, a);
    } else if Below(b, a) {
      TwoRepeatTable(cards, order, a, b);
    } else {
      OrdinalInjective(a, b);
      TwoRepeatTable(cards, order, b, a);
    }
  }

  /** Two repeated ranks on fewer than five cards: the line has four cards and is rejected. */
  lemma TwoRepeatsOnFour(cards: seq<PlayCard>, order: seq<DeckCard>, a: DeckCard, b: DeckCard)
    requires IsHashOrder(order) && 3 <= |cards| < 5
    requires a != b && Multiplicity(cards, a) >= 2 && Multiplicity(cards, b) >= 2
    requires forall d :: d != a && d != b ==> Multiplicity(cards, d) <= 1
    ensures |cards| == 4 && FromVecCards(cards, order) == Err(WrongNumberOfCards)
  {
    TwoMultiplicitiesFit(cards, a, b);
    TwoRepeatTable(cards, order, a, b);
  }

  /** Exactly two ranks repeat when `calc_pairs` finds two; those are the ranks. */
  lemma TwoRepeatedRanks(cards: seq<PlayCard>) returns (a: DeckCard, b: DeckCard)
    requires |CalcPairs(cards)| == 2
    ensures a != b && Multiplicity(cards, a) >= 2 && Multiplicity(cards, b) >= 2
    ensures forall d :: d != a && d != b ==> Multiplicity(cards, d) <= 1
  {
    var pairs := CalcPairs(cards);
    a :| a in pairs;
    b := SecondKey(pairs, a);
    OnlyTwoKeys(pairs, a, b);
  }

  /** With two repeated ranks, only 4-card lines fail. */
  lemma TwoRepeatsErrors(cards: seq<PlayCard>, order: seq<DeckCard>)
    requires IsHashOrder(order) && 3 <= |cards| <= 5
    requires |CalcPairs(cards)| == 2
    ensures FromVecCards(cards, order).Err? ==> ReachableError(cards, FromVecCards(cards, order).error)
  {
    var a, b := TwoRepeatedRanks(cards);
    if |cards| == 5 {
      TwoRepeatsOnFive(cards, order, a, b);
    } else {
      TwoRepeatsOnFour(cards, order, a, b);
    }
  }

  /**
   * Only reachable errors occur: `pairs_hand`'s catch-all, four of a kind
   * on three cards, two repeated ranks on three cards and a counter sum
   * other than 4 or 5 never do.
   */
  lemma ReachableErrors(cards: seq<PlayCard>, order: seq<DeckCard>)
    requires IsHashOrder(order)
    ensures FromVecCards(cards, order).Err? ==> ReachableError(cards, FromVecCards(cards, order).error)
  {
    if 3 <= |cards| <= 5 {
      AtMostTwoRepeatedRanks(cards);
      if |CalcPairs(cards)| == 1 {
        OneRepeatErrors(cards, order);
      } else if |CalcPairs(cards)| == 2 {
        TwoRepeatsErrors(cards, order);
      }
    }
  }

  /** A line of three or five cards in which no rank fills all five places always classifies. */
  lemma OfcLinesClassify(cards: seq<PlayCard>, order: seq<DeckCard>)
    requires IsHashOrder(order) && (|cards| == 3 || |cards| == 5)
    requires forall d :: Multiplicity(cards, d) < 5
    ensures FromVecCards(cards, order).Ok?
  {
    ReachableErrors(cards, order);
  }
}
