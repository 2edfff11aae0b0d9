# Poker hand classifier of ofc-calc-rust, in Dafny

This project models the hand classifier of ofc-calc-rust, an open-face
Chinese poker calculator. `Combination::from_vec_cards` takes a line of
cards. It rejects lines shorter than three or longer than five cards. It
then counts how often each rank occurs (`calc_pairs`) and dispatches on the
number of repeated ranks:

- No repeated rank: the line is a straight, flush, straight flush, royal
  flush or kicker. This is decided by `check_straight` and `check_flush`.
  The ace-low "wheel" (Two, Three, Four, Five, Ace) tops a straight at Five.
- One repeated rank: its count gives a pair, three of a kind or four of a
  kind.
- Two repeated ranks: the sum of their counts gives two pairs or a full
  house.

The model also covers the value types the classifier works on:

- the 13 ranks (`DeckCard`) and their notation parser;
- the four suits and their parser;
- the two-character card parser;
- the two collection helpers.

Modules follow the source files:

| module | file | models |
|---|---|---|
| `Wrappers` | wrappers.dfy | `Option` and `Result` |
| `DeckCards` | deck_card.dfy | src/poker/cards/deck_card.rs |
| `Suits` | suit.dfy | src/poker/cards/suit.rs |
| `PlayCards` | play_card.dfy | src/poker/cards/play_card.rs |
| `Collection` | collection.dfy | src/helper/collection.rs |
| `RankSort` | rank_sort.dfy | the `sort_by` on rank ordinals in src/poker/combination.rs |
| `Combinations` | combination.dfy | src/poker/combination.rs |
| `CombinationLaws` | combination_laws.dfy | the decision table and the unreachable error branches |
| `CombinationSpec` | combination_spec.dfy | an independent definition of each combination, with soundness, completeness and invariance |
| `CombinationScenarios` | combination_scenarios.dfy | the example lines of src/test.rs, each classified under every hash order |

Some source behaviour is not observable, so the model makes it explicit:

- **Hash iteration order.** The iteration order of the Rust `HashMap`
  that `calc_pairs` returns cannot be observed. `FromVecCards` therefore
  takes an `order` parameter: any arrangement of the 13 ranks with each
  rank listed once (`IsHashOrder`). It passes the helpers the keys of the
  pairs table in that order (`Iteration`). `single_card_pairs`
  (`keys().nth(0)`), the counter `fold`, `hashmap_get_key_by_value` and
  `two_pairs` all see this iteration.
  `CombinationSpec.OrderIndependent` proves the answer never depends on it.
- **The highest card.** `PlayCard::calc_highest_card` is called but is not
  part of this model. `PlayCards.Highest` stands in for it: the first card
  of the line whose rank no other card exceeds. Its contract is only that
  the result is in the line and no card ranks higher (`IsTopCard`).
  Wherever the classifier calls it, no rank repeats, so exactly one card
  meets that contract (`CombinationLaws.TopCardUnique`).
- **Errors.** The classifier returns error strings. The model has one
  `ClassifyError` constructor per distinct message. The parsers have one
  error type each, and the card parser forwards the sub-parsers' errors
  unchanged, as Rust's `?` does.

`CombinationSpec.Describes` states what each combination means on a line,
in terms of rank multiplicities, runs of ranks and suits. It makes no
reference to the pairs table, the hash order or the positions of the
cards. The classifier is proved sound and complete for this description:

- sound: every combination it reports describes the line;
- complete: it reports every combination that describes a line of three
  to five cards.

From these two it follows that reordering the cards of a line never
changes the answer, and neither does the hash order.

## Model

| member | source | states |
|---|---|---|
| DeckCards.Ordinal | src/poker/cards/deck_card.rs:16-30 | `enum_index` gives each of the 13 ranks an index below 13. |
| DeckCards.DeclarationOrder | src/poker/cards/deck_card.rs:16-30 | `enum_index` is the position in the declaration: the rank listed at position i has index i, and every rank is listed at its own index. |
| DeckCards.Below | src/poker/cards/deck_card.rs:10-30 | The derived `<` is strict: no rank is below itself, the Ace is below nothing, and nothing is below the Two. |
| DeckCards.DeclarationOrderIsTotal | src/poker/cards/deck_card.rs:10-30 | Rank order is a strict total order that follows declaration order, Two < Three < … < King < Ace (the derived `Ord`). |
| DeckCards.OrdinalInjective | src/poker/cards/deck_card.rs:16-30 | Two ranks with the same `enum_index` are the same rank. |
| DeckCards.FromOrdinal | src/poker/cards/deck_card.rs:39 | `index_enum` of an index below 13 is the rank whose ordinal is that index. |
| DeckCards.Position | src/poker/cards/deck_card.rs:34-36 | `position` is None exactly when the symbol is absent; otherwise it is the first index that holds the symbol. |
| DeckCards.FromString | src/poker/cards/deck_card.rs:33-41 | Parsing succeeds exactly for the 13 symbols of `CARD_NOTATION`; the parsed rank's ordinal is the symbol's index in the notation. |
| DeckCards.FromStringCoversAllRanks | src/poker/cards/deck_card.rs:4-8 | Every rank is parsed from the symbol at its ordinal, so '2' gives Two and 'A' gives Ace. |
| DeckCards.FromStringInjective | src/poker/cards/deck_card.rs:33-41 | Two accepted symbols that give the same rank are the same symbol. |
| Suits.FromString | src/poker/cards/suit.rs:12-20 | A parsed suit has the input as its letter; parsing fails, with the one suit error, exactly when the input is none of "h", "d", "c", "s". |
| Suits.FromStringRoundTrip | src/poker/cards/suit.rs:13-17 | Each suit is parsed from its own letter, so all four suits are covered. |
| Suits.FromStringInjective | src/poker/cards/suit.rs:13-17 | Two strings that parse to the same suit are the same string. |
| Suits.FromStringRejectsOtherLengths | src/poker/cards/suit.rs:18 | The empty string and every string of two or more characters are rejected. |
| PlayCards.FromString | src/poker/cards/play_card.rs:11-24 | The result is a length error for input whose length is not 2. Parsing succeeds exactly when character 0 is a rank symbol and character 1 a suit symbol; the card then has the rank of character 0 and the suit of character 1. An unknown rank symbol gives the rank parser's error. |
| PlayCards.FromStringRoundTrip | src/poker/cards/play_card.rs:11-24 | Every card is parsed back from its two-character notation, so every valid rank symbol followed by a valid suit symbol parses. |
| PlayCards.FromStringBadSuit | src/poker/cards/play_card.rs:17-18 | A known rank symbol followed by an unknown suit symbol fails with the suit parser's error. |
| PlayCards.Highest | src/poker/combination.rs:39 | The stand-in for `calc_highest_card` returns a card of the line with no card ranked above it. |
| Collection.SliceGetByIndex | src/helper/collection.rs:4-6 | `iter().nth(i)` is the element at i when i is in range, and None otherwise. |
| Collection.GetKeyByValue | src/helper/collection.rs:8-14 | A returned key is in the map with the sought value. The result is None exactly when no iterated key has that value; when every key is iterated, exactly when no entry has it. When exactly one key has the value, that key is returned. A returned key is the first iterated key with the value. |
| RankSort.SortRanks | src/poker/combination.rs:53-59 | The result is sorted by ordinal and is a permutation of the input. |
| RankSort.SortedUnique | src/poker/combination.rs:53-59 | Two sorted arrangements of the same ranks are equal, so a stable or unstable sort gives the same ranks. |
| Combinations.CheckFlush | src/poker/combination.rs:32-42 | `check_flush` is Some exactly for five cards of one suit, and the card it returns is in the line with no card ranked above it. |
| Combinations.RanksOf | src/poker/combination.rs:49-52 | The ranks collected from a line are the ranks of its cards, position by position, with none added or dropped. |
| Combinations.Step | src/poker/combination.rs:67 | On sorted ranks, the `usize` difference `next - current` never underflows, and it is zero exactly when the two ranks are equal. |
| Combinations.ScanSequence | src/poker/combination.rs:61-69 | The loop ends with `sequence` true exactly when every adjacent pair from `step` on rises by one ordinal. |
| Combinations.CheckStraight | src/poker/combination.rs:44-85 | `check_straight` reports only on five cards, and it reports a rank of the line. |
| CombinationLaws.CheckStraightIff | src/poker/combination.rs:44-85 | `check_straight` reports `high` if and only if the line has five cards whose ranks are the five consecutive ranks up to `high`, or are the wheel with `high` = Five. |
| CombinationLaws.CheckStraightNone | src/poker/combination.rs:44-85 | `check_straight` is None if and only if the line forms no straight to any rank. |
| CombinationLaws.WheelStraight | src/poker/combination.rs:70-80 | Five cards ranked Two, Three, Four, Five and Ace in any order make `check_straight` report Five, not Ace. |
| CombinationLaws.RunStraight | src/poker/combination.rs:61-81 | Five consecutive ranks in any order make `check_straight` report the highest of them. |
| CombinationLaws.StraightReported | src/poker/combination.rs:44-85 | Whatever `check_straight` reports tops a straight of the line. |
| CombinationLaws.HighestTopsSortedRanks | src/poker/combination.rs:81 | The highest card's rank is the last of the sorted ranks. |
| Combinations.Tally | src/poker/combination.rs:88-95 | The counting loop maps each rank of the line, and only those, to its number of cards. |
| Combinations.CalcPairs | src/poker/combination.rs:87-98 | `calc_pairs` keeps exactly the ranks held by at least two cards, each mapped to its exact count. |
| Combinations.Iteration | src/poker/combination.rs:143-146 | The keys of the pairs table, in hash order, are exactly the table's keys, each listed once. |
| Combinations.CounterSum | src/poker/combination.rs:166-168 | The `fold` over two keys is the sum of their counters, and with counters of at least 2 it is at least twice the number of keys. |
| Combinations.SequenceHand | src/poker/combination.rs:114-132 | `sequence_hand` never fails, and on a line of other than five cards it is the kicker of the highest rank. |
| Combinations.TwoPairsHand | src/poker/combination.rs:188-208 | `two_pairs` names two keys, `pair1` strictly above `pair2`, with every other key at most `pair2`. |
| Combinations.SingleCardPairs | src/poker/combination.rs:142-160 | The result succeeds exactly for a counter of 2 or 3, or of 4 on five cards. It then carries the repeated rank: a pair exactly for counter 2, three of a kind exactly for 3, four of a kind exactly for 4. The 3-card-line error occurs exactly for a counter of 4 on three cards. |
| Combinations.MultipleCardsPairs | src/poker/combination.rs:162-186 | The result fails on lines other than five cards. Two pairs name two keys counted twice, the higher first; a full house names the key counted three times and then the key counted twice. |
| Combinations.PairsHand | src/poker/combination.rs:134-140 | `pairs_hand` succeeds only when one or two ranks repeat. |
| Combinations.FromVecCards | src/poker/combination.rs:100-111 | The result is the invalid-length error exactly when the line is shorter than 3 or longer than 5 cards. |
| CombinationLaws.StraightTable | src/poker/combination.rs:114-128 | With no repeated rank and a straight to `high`, the result is a straight when the suits differ. Otherwise it is a royal flush when `high` is the Ace, and a straight flush carrying `high` and the suit when it is not (the wheel flush is a Five-high straight flush). |
| CombinationLaws.NoStraightTable | src/poker/combination.rs:129-130 | With no repeated rank and no straight, the result is a flush of the highest card when all five cards share a suit, and otherwise the kicker of the highest rank. |
| CombinationLaws.ShortLineIsKicker | src/poker/combination.rs:101-130 | A line of three or four cards with no repeated rank is accepted, and it is the kicker of its highest rank. |
| CombinationLaws.OneRepeatTable | src/poker/combination.rs:142-160 | With exactly one repeated rank, the result follows its count: 2 a pair, 3 three of a kind, 4 four of a kind on five cards. Four on three cards and four on four cards are distinct errors, and any other count is the counter error. |
| CombinationLaws.TwoRepeatTable | src/poker/combination.rs:162-186 | With exactly two repeated ranks: three cards give the 3-card-line error, and four cards give the wrong-length error. On five cards, counts 2 and 2 give two pairs with the higher rank first, and counts 3 and 2 give the full house of the triple and the double. |
| CombinationLaws.TwoPairsHandPicksHigher | src/poker/combination.rs:188-208 | `two_pairs` names the higher rank first, whichever order the table lists the two keys in. |
| CombinationLaws.TwoKeysFullHouse | src/poker/combination.rs:171-179 | Keys counted 3 and 2 give a full house of the triple and the double, in either iteration order. |
| CombinationLaws.AtMostTwoRepeatedRanks | src/poker/combination.rs:134-139 | A line of at most five cards has at most two repeated ranks, so the `Invalid number of pairs` branch is never taken. |
| CombinationLaws.ReachableErrors | src/poker/combination.rs:100-186 | The only errors that occur are: a bad length; a 4-card line with four of a kind or two repeated ranks; five cards of one rank. The 3-card four of a kind, two repeated ranks on three cards, a counter sum other than 4 or 5, and more than two repeated ranks never occur. |
| CombinationLaws.OfcLinesClassify | src/poker/combination.rs:100-111 | Every line of three or five cards in which no rank fills five places is classified without error. |
| CombinationLaws.TopCardUnique | src/poker/combination.rs:39 | With no repeated rank, only one card is a highest card, so the tie-breaking of `calc_highest_card` never shows. |
| CombinationSpec.ClassifierSound | src/poker/combination.rs:100-208 | Every combination the classifier reports describes the line. |
| CombinationSpec.ClassifierComplete | src/poker/combination.rs:100-208 | Every combination that describes a line of three to five cards is the one the classifier reports. |
| CombinationSpec.DescriptionUnique | src/poker/combination.rs:114-208 | At most one combination describes a line of three to five cards. |
| CombinationSpec.ResultTakenFromLine | src/poker/combination.rs:114-208 | Every rank, card and suit carried by a reported combination occurs in the line. |
| CombinationSpec.DescribesPermuted | src/poker/combination.rs:87-98 | A property of the description, used toward `PermutationInvariant`: it depends only on the multiset of cards, as the counts `calc_pairs` takes do, so two arrangements of the same cards are described by the same combinations. |
| CombinationSpec.PermutationInvariant | src/poker/combination.rs:100-111 | Two arrangements of the same cards are classified alike, under any two hash orders. |
| CombinationSpec.OrderIndependent | src/poker/combination.rs:142-208 | The iteration order of the pairs table never changes the answer. |
| CombinationScenarios.RoyalFlushLine | src/test.rs:6-22 | The line A♠ K♠ Q♠ J♠ T♠ is the royal flush of spades. |
| CombinationScenarios.StraightFlushLine | src/test.rs:24-42 | The line K♠ Q♠ J♠ T♠ 9♠ is the straight flush of the king of spades. |
| CombinationScenarios.StraightFlushWheelLine | src/test.rs:44-62 | The line 2♠ 4♠ 3♠ 5♠ A♠ is the straight flush of the five of spades. |
| CombinationScenarios.FourOfAKindLine | src/test.rs:64-82 | The line K♥ K♦ K♣ K♠ A♠ is four of a kind of kings. |
| CombinationScenarios.FullHouseLine | src/test.rs:84-103 | The line K♥ K♦ K♣ A♣ A♠ is the full house of kings over aces. |
| CombinationScenarios.FlushLine | src/test.rs:105-124 | The line K♥ J♥ T♥ 8♥ 5♥ is the flush of the king of hearts. |
| CombinationScenarios.StraightLine | src/test.rs:126-142 | The line K♥ Q♠ J♥ T♥ 9♥ is the king-high straight. |
| CombinationScenarios.StraightWheelLine | src/test.rs:144-160 | The line 2♠ 4♠ 3♣ 5♠ A♠ is the Five-high straight. |
| CombinationScenarios.ThreeOfAKindFiveLine | src/test.rs:162-178 | The line 2♠ 2♥ 2♣ 5♠ A♠ is three of a kind of twos. |
| CombinationScenarios.ThreeOfAKindThreeLine | src/test.rs:180-194 | The line 4♠ 4♥ 4♣ is three of a kind of fours. |
| CombinationScenarios.TwoPairsLine | src/test.rs:196-215 | The line 7♠ J♥ 7♣ J♠ A♠ is two pairs, jacks first and sevens second. |
| CombinationScenarios.PairFiveLine | src/test.rs:217-233 | The line 7♠ J♥ 8♣ J♠ A♠ is a pair of jacks. |
| CombinationScenarios.PairThreeLine | src/test.rs:235-249 | The line 8♣ A♠ A♥ is a pair of aces. |
| CombinationScenarios.KickerFiveLine | src/test.rs:251-267 | The line 8♣ 3♠ K♥ 2♥ 5♥ is the kicker of the king. |
| CombinationScenarios.KickerThreeLine | src/test.rs:269-283 | The line 8♣ 3♠ 5♥ is the kicker of the eight. |

## Left out

- Display implementations and error message text. The error messages are
  modelled as constructors of `ClassifyError`, one per distinct message.
- `PlayCard::calc_highest_card` is not part of this model. `Highest`
  chooses the first maximal card. Only its contract is relied on, and the
  classifier calls it only where that contract fixes a single card.
- Rust string handling in `PlayCard::from_string`. The length test counts
  bytes in Rust, and the model counts characters: input is a `seq<char>`.
  `DeckCard::from_string` is given the first character, where the source
  passes the one-character slice `&input[..1]`.
- The `u8` counters of `calc_pairs` are unbounded naturals here. On a line
  of at most five cards, no counter can exceed five.
- The `usize` subtraction in `check_straight` is modelled as an integer
  difference. The ranks are sorted ascending first, so the difference is
  never negative and the Rust subtraction cannot underflow (the contract
  of `Step`).
- `HashMap` storage is a Dafny `map`. Its iteration order is the `order`
  parameter described above.
- src/ofc.rs, src/poker/game.rs and src/main.rs: a prototype that is
  never compiled, a driver that prints results, and the entry point. None
  of them is part of the classifier.
- Line length: open-face Chinese poker deals lines of three and five
  cards, but the classifier also accepts four. The model follows the code:
  four-card lines are classified. Four of a kind and two
  repeated ranks on four cards give the `Wrong number of cards` error, and
  every other four-card line gets an ordinary combination.
- Duplicate physical cards: the classifier does not reject a line that
  holds the same card twice, and the model does not either. Five cards of
  one rank give the counter error (`CombinationLaws.ReachableErrors`).
