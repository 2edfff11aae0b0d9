/**
 * The hand classifier of src/poker/combination.rs: a line of three to five
 * cards becomes a `Combination`, decided by how often ranks repeat, and for
 * lines without a repeated rank by the straight and flush tests.
 */
module Combinations {
  import opened Wrappers
  import opened DeckCards
  import opened Suits
  import opened PlayCards
  import opened RankSort
  import opened Collection

  datatype Combination =
    | Kicker(rank: DeckCard)
    | Pair(rank: DeckCard)
    | TwoPairs(pair1: DeckCard, pair2: DeckCard)
    | ThreeOfAKind(rank: DeckCard)
    | Straight(rank: DeckCard)
    | Flush(card: PlayCard)
    | FullHouse(triple: DeckCard, double: DeckCard)
    | FourOfAKind(rank: DeckCard)
    | StraightFlush(card: PlayCard)
    | RoyalFlush(suit: Suit)

  /** One constructor per distinct error message the classifier returns. */
  datatype ClassifyError =
    | InvalidNumberOfCards        // the line is shorter than 3 or longer than 5
    | InvalidNumberOfPairs        // more than two ranks repeat
    | FourOfAKindOnThreeCardLine  // a rank four times in a 3-card line
    | WrongNumberOfCards          // four of a kind, two pairs or full house in a 4-card line
    | InvalidPairCounter          // the single repeated rank repeats other than 2, 3 or 4 times
    | TwoPairsOnThreeCardLine     // two repeated ranks in a 3-card line
    | InvalidPairCounterSum       // two repeated ranks whose counts add up to neither 4 nor 5

  /** The ranks of a line, position by position. */
  function RanksOf(cards: seq<PlayCard>): (ranks: seq<DeckCard>)
    ensures |ranks| == |cards| && forall i :: 0 <= i < |cards| ==> ranks[i] == cards[i].value
  {
    seq(|cards|, i requires 0 <= i < |cards| => cards[i].value)
  }

  /** How many cards of the line have rank d. */
  function Multiplicity(cards: seq<PlayCard>, d: DeckCard): nat
  {
    multiset(RanksOf(cards))[d]
  }

  /** The rank of a card of the line is a rank of the line. */
  lemma CardRankInLine(cards: seq<PlayCard>, c: PlayCard)
    requires c in cards
    ensures c.value in RanksOf(cards)
  {
    var i :| 0 <= i < |cards| && cards[i] == c;
    assert RanksOf(cards)[i] == c.value;
  }

  // ---------------------------------------------------------------------
  // Flush
  // ---------------------------------------------------------------------

  /** Five cards, all of one suit. */
  ghost predicate IsFlushLine(cards: seq<PlayCard>)
  {
    |cards| == 5 && forall c, d :: c in cards && d in cards ==> c.suit == d.suit
  }

  /** `check_flush`: a highest card of the line when it is a five-card flush. */
  function CheckFlush(cards: seq<PlayCard>): (r: Option<PlayCard>)
    ensures r.Some? <==> IsFlushLine(cards)
    ensures r.Some? ==> IsTopCard(cards, r.value)
  {
    var isFlush := |cards| == 5 && forall i :: 0 <= i < |cards| ==> cards[i].suit == cards[0].suit;
    if isFlush then Some(Highest(cards)) else None
  }

  // ---------------------------------------------------------------------
  // Straight
  // ---------------------------------------------------------------------

  /** The ace-low straight, in ascending ordinal order. */
  const Wheel: seq<DeckCard> := [Two, Three, Four, Five, Ace]

  /** The five consecutive ranks ending at `high`. */
  function RunTo(high: DeckCard): (run: seq<DeckCard>)
    requires Ordinal(high) >= 4
    ensures |run| == 5 && forall i :: 0 <= i < 5 ==> Ordinal(run[i]) == Ordinal(high) - 4 + i
  {
    var low := Ordinal(high) - 4;
    [FromOrdinal(low), FromOrdinal(low + 1), FromOrdinal(low + 2), FromOrdinal(low + 3), FromOrdinal(low + 4)]
  }

  /**
   * Five cards whose ranks are five consecutive ranks topped by `high`, or
   * the ranks Two to Five with an Ace, topped by Five.
   */
  ghost predicate IsStraightTo(cards: seq<PlayCard>, high: DeckCard)
  {
    && |cards| == 5
    && ((high == Five && multiset(RanksOf(cards)) == multiset{Two, Three, Four, Five, Ace})
        || (Ordinal(high) >= 4 && multiset(RanksOf(cards)) == multiset(RunTo(high))))
  }

  /**
   * The rise of ordinal from position i to position i + 1. On sorted ranks the
   * `usize` subtraction never underflows, and it is zero exactly on a repeat.
   */
  function Step(values: seq<DeckCard>, i: nat): (rise: int)
    requires i + 1 < |values|
    ensures Sorted(values) ==> rise >= 0
    ensures rise == 0 <==> values[i] == values[i + 1]
  {
    OrdinalInjective(values[i], values[i + 1]);
    Ordinal(values[i + 1]) - Ordinal(values[i])
  }

  /**
   * The loop of `check_straight`: from `step` on, keeps `sequence` true while
   * each adjacent pair rises by exactly one.
   */
  function ScanSequence(values: seq<DeckCard>, step: nat, sequence: bool): (r: bool)
    ensures r <==> sequence && forall i :: step <= i && i + 1 < |values| ==> Step(values, i) == 1
    decreases |values| - step
  {
    if step + 1 < |values| && sequence then
      ScanSequence(values, step + 1, sequence && Step(values, step) == 1)
    else
      sequence
  }

  /**
   * `check_straight`: sorts the ranks of a five-card line, then reports the
   * top of the straight: Five for the wheel, the highest rank otherwise.
   */
  function CheckStraight(cards: seq<PlayCard>): (r: Option<DeckCard>)
    ensures r.Some? ==> |cards| == 5 && r.value in RanksOf(cards)
  {
    if |cards| != 5 then None
    else
      var values := SortRanks(RanksOf(cards));
      var sequence := ScanSequence(values, 0, true);
      var isWheel := values == Wheel;
      if sequence || isWheel then
        if isWheel then
          assert values[|Wheel| - 2] in multiset(values);
          Some(values[|Wheel| - 2])
        else
          var top := Highest(cards);
          CardRankInLine(cards, top);
          Some(top.value)
      else
        None
  }

  // ---------------------------------------------------------------------
  // The pairs table
  // ---------------------------------------------------------------------

  /** The counting loop of `calc_pairs`: every rank of the line with its number of cards. */
  function Tally(cards: seq<PlayCard>): (t: map<DeckCard, nat>)
    ensures forall d :: d in t <==> Multiplicity(cards, d) > 0
    ensures forall d :: d in t ==> t[d] == Multiplicity(cards, d)
    decreases |cards|
  {
    if |cards| == 0 then map[]
    else
      var prefix := cards[..|cards| - 1];
      var d := cards[|cards| - 1].value;
      var t := Tally(prefix);
      assert RanksOf(cards) == RanksOf(prefix) + [d];
      t[d := (if d in t then t[d] else 0) + 1]
  }

  /** `calc_pairs`: the ranks held by at least two cards, each with its number of cards. */
  function CalcPairs(cards: seq<PlayCard>): (pairs: map<DeckCard, nat>)
    ensures forall d :: d in pairs <==> Multiplicity(cards, d) >= 2
    ensures forall d :: d in pairs ==> pairs[d] == Multiplicity(cards, d)
  {
    var t := Tally(cards);
    map d | d in t && t[d] > 1 :: t[d]
  }

  /**
   * A possible iteration order of a `HashMap` keyed by rank: every rank,
   * once. The order is not observable in Rust, so the classifier takes it
   * as a parameter.
   */
  ghost predicate IsHashOrder(order: seq<DeckCard>)
  {
    (forall d: DeckCard :: d in order) && NoDuplicates(order)
  }

  /** keys lists the keys of the table, each once. */
  ghost predicate Enumerates(keys: seq<DeckCard>, pairs: map<DeckCard, nat>)
  {
    (forall d :: d in keys <==> d in pairs) && NoDuplicates(keys)
  }

  /** The keys of the table in the sequence the hash order gives them. */
  function Iteration(pairs: map<DeckCard, nat>, order: seq<DeckCard>): (keys: seq<DeckCard>)
    ensures forall d :: d in keys <==> d in order && d in pairs
    ensures NoDuplicates(order) ==> NoDuplicates(keys)
  {
    if |order| == 0 then []
    else
      var rest := Iteration(pairs, order[1..]);
      if order[0] in pairs then
        assert NoDuplicates(order) ==> order[0] !in order[1..];
        [order[0]] + rest
      else
        rest
  }

  /** Under a hash order the iteration lists every key of the table once. */
  lemma IterationEnumerates(pairs: map<DeckCard, nat>, order: seq<DeckCard>)
    requires IsHashOrder(order)
    ensures Enumerates(Iteration(pairs, order), pairs)
  {
  }

  /** An enumeration of the table's keys is as long as the table. */
  lemma EnumerationLength(keys: seq<DeckCard>, pairs: map<DeckCard, nat>)
    requires Enumerates(keys, pairs)
    ensures |keys| == |pairs|
  {
    NoDuplicatesLength(keys);
    assert (set x | x in keys) == pairs.Keys;
  }

  /** The `fold` of `multiple_cards_pairs` that adds the counters up, in iteration order. */
  function CounterSum(pairs: map<DeckCard, nat>, keys: seq<DeckCard>): (s: nat)
    requires forall d :: d in keys ==> d in pairs
    ensures (forall d :: d in keys ==> pairs[d] >= 2) ==> s >= 2 * |keys|
    ensures |keys| == 1 ==> s == pairs[keys[0]]
    ensures |keys| == 2 ==> s == pairs[keys[0]] + pairs[keys[1]]
  {
    if |keys| == 0 then 0 else pairs[keys[0]] + CounterSum(pairs, keys[1..])
  }

  // ---------------------------------------------------------------------
  // Classification
  // ---------------------------------------------------------------------

  /** `sequence_hand`: a line without a repeated rank, by the straight and flush tests. */
  function SequenceHand(cards: seq<PlayCard>): (r: Result<Combination, ClassifyError>)
    requires |cards| > 0
    ensures r.Ok?
    ensures |cards| != 5 ==> r == Ok(Kicker(Highest(cards).value))
  {
    match (CheckStraight(cards), CheckFlush(cards))
    case (Some(high), None) => Ok(Straight(high))
    case (Some(high), Some(flushTop)) =>
      if high == Ace then Ok(RoyalFlush(flushTop.suit))
      else Ok(StraightFlush(PlayCard(high, flushTop.suit)))
    case (None, Some(flushTop)) => Ok(Flush(flushTop))
    case (None, None) => Ok(Kicker(Highest(cards).value))
  }

  /**
   * The last two ranks of a sorted arrangement of distinct ranks are the
   * highest and the second highest of them.
   */
  lemma TopTwo(keys: seq<DeckCard>, sorted: seq<DeckCard>)
    requires |keys| >= 2 && NoDuplicates(keys)
    requires Sorted(sorted) && multiset(sorted) == multiset(keys)
    ensures |sorted| == |keys|
    ensures sorted[|sorted| - 1] in keys && sorted[|sorted| - 2] in keys
    ensures Below(sorted[|sorted| - 2], sorted[|sorted| - 1])
    ensures forall d :: d in keys && d != sorted[|sorted| - 1] ==> Ordinal(d) <= Ordinal(sorted[|sorted| - 2])
  {
    assert |sorted| == |multiset(sorted)| == |keys|;
    var n := |sorted|;
    NoDuplicatesCounts(keys);
    NoDuplicatesCounts(sorted);
    SortedDistinctTop(sorted);
    assert sorted[n - 1] in multiset(keys) && sorted[n - 2] in multiset(keys);
    forall d | d in keys && d != sorted[n - 1] ensures Ordinal(d) <= Ordinal(sorted[n - 2]) {
      assert d in multiset(sorted);
      var j :| 0 <= j < n && sorted[j] == d;
    }
  }

  /**
   * `two_pairs`: the keys sorted by descending ordinal, the first two taken.
   * Sorting ascending and taking the last two gives the same ranks.
   */
  function TwoPairsHand(keys: seq<DeckCard>): (r: Combination)
    requires |keys| >= 2 && NoDuplicates(keys)
    ensures r.TwoPairs? && r.pair1 in keys && r.pair2 in keys
    ensures Below(r.pair2, r.pair1)
    ensures forall d :: d in keys && d != r.pair1 ==> Ordinal(d) <= Ordinal(r.pair2)
  {
    var sorted := SortRanks(keys);
    TopTwo(keys, sorted);
    TwoPairs(sorted[|sorted| - 1], sorted[|sorted| - 2])
  }

  /** `single_card_pairs`: one rank repeats; its counter picks the combination. */
  function SingleCardPairs(pairs: map<DeckCard, nat>, keys: seq<DeckCard>, cardsLen: nat)
    : (r: Result<Combination, ClassifyError>)
    requires |keys| >= 1 && keys[0] in pairs
    ensures r.Ok? <==> pairs[keys[0]] == 2 || pairs[keys[0]] == 3 || (pairs[keys[0]] == 4 && cardsLen == 5)
    ensures r.Ok? ==> (r.value.Pair? || r.value.ThreeOfAKind? || r.value.FourOfAKind?) && r.value.rank == keys[0]
    ensures r.Ok? ==> && (r.value.Pair? <==> pairs[keys[0]] == 2)
                      && (r.value.ThreeOfAKind? <==> pairs[keys[0]] == 3)
                      && (r.value.FourOfAKind? <==> pairs[keys[0]] == 4)
    ensures r == Err(FourOfAKindOnThreeCardLine) <==> pairs[keys[0]] == 4 && cardsLen == 3
  {
    var rank := keys[0];
    var counter := pairs[rank];
    if counter == 2 then Ok(Pair(rank))
    else if counter == 3 then Ok(ThreeOfAKind(rank))
    else if counter == 4 then
      if cardsLen == 3 then Err(FourOfAKindOnThreeCardLine)
      else if cardsLen == 5 then Ok(FourOfAKind(rank))
      else Err(WrongNumberOfCards)
    else Err(InvalidPairCounter)
  }

  /** `multiple_cards_pairs`: two ranks repeat; the sum of their counters picks the combination. */
  function MultipleCardsPairs(pairs: map<DeckCard, nat>, keys: seq<DeckCard>, cardsLen: nat)
    : (r: Result<Combination, ClassifyError>)
    requires Enumerates(keys, pairs) && |keys| >= 2
    requires forall d :: d in pairs ==> pairs[d] >= 2
    ensures cardsLen != 5 ==> r.Err?
    ensures r.Ok? && r.value.TwoPairs? ==>
              && r.value.pair1 in pairs && r.value.pair2 in pairs
              && pairs[r.value.pair1] == 2 && pairs[r.value.pair2] == 2
              && Below(r.value.pair2, r.value.pair1)
    ensures r.Ok? && r.value.FullHouse? ==>
              && r.value.triple in pairs && r.value.double in pairs
              && pairs[r.value.triple] == 3 && pairs[r.value.double] == 2
    ensures r.Ok? ==> r.value.TwoPairs? || r.value.FullHouse?
  {
    if cardsLen == 3 then Err(TwoPairsOnThreeCardLine)
    else if cardsLen == 5 then
      var sum := CounterSum(pairs, keys);
      if sum == 4 then
        assert |keys| == 2;
        Ok(TwoPairsHand(keys))
      else if sum == 5 then
        assert |keys| == 2;
        assert pairs[keys[0]] == 3 || pairs[keys[1]] == 3;
        assert pairs[keys[0]] == 2 || pairs[keys[1]] == 2;
        match (GetKeyByValue(pairs, keys, 3), GetKeyByValue(pairs, keys, 2))
        case (Some(triple), Some(double)) => Ok(FullHouse(triple, double))
        case _ => assert false; Err(InvalidPairCounterSum)
      else
        Err(InvalidPairCounterSum)
    else
      Err(WrongNumberOfCards)
  }

  /** `pairs_hand`: dispatch on how many ranks repeat. */
  function PairsHand(pairs: map<DeckCard, nat>, keys: seq<DeckCard>, cardsLen: nat)
    : (r: Result<Combination, ClassifyError>)
    requires Enumerates(keys, pairs)
    requires forall d :: d in pairs ==> pairs[d] >= 2
    ensures r.Ok? ==> 1 <= |pairs| <= 2
  {
    EnumerationLength(keys, pairs);
    if |pairs| == 1 then SingleCardPairs(pairs, keys, cardsLen)
    else if |pairs| == 2 then MultipleCardsPairs(pairs, keys, cardsLen)
    else Err(InvalidNumberOfPairs)
  }

  /**
   * `Combination::from_vec_cards`: rejects lines shorter than 3 or longer
   * than 5, then classifies by the pairs table.
   */
  function FromVecCards(cards: seq<PlayCard>, order: seq<DeckCard>): (r: Result<Combination, ClassifyError>)
    requires IsHashOrder(order)
    ensures r == Err(InvalidNumberOfCards) <==> |cards| < 3 || |cards| > 5
  {
    if |cards| < 3 || |cards| > 5 then Err(InvalidNumberOfCards)
    else
      var pairs := CalcPairs(cards);
      if |pairs| == 0 then SequenceHand(cards)
      else
        IterationEnumerates(pairs, order);
        PairsHand(pairs, Iteration(pairs, order), |cards|)
  }
}
