# Blackjack rules engine in Dafny

This project models the rules engine of a text-mode Blackjack game. It covers:

- the cards and the shoe (`Card`, `Deck` in cards.py);
- the hand with its scoring and its actions (`Hand` in models.py);
- the participants that hold hands (`HasHands`, `Player`, `Dealer` in has_hands.py).

It has four modules:

- `Cards` (cards.dfy): ranks, suits and cards; the validating card constructor; the `Deck` class.
  A deck is generated pack by pack, or taken from an explicit list. Its `Pick` draws the last card,
  and its `Shuffle` permutes the cards in place.
- `Scoring` (scoring.dfy): the pure side of a hand. `Score` gives its value. The predicates are
  blackjack, bust, can-split and can-double-down. The lemmas say what the score means: the best total
  within 21 over every way of counting each Ace as 1 or 11, and otherwise every Ace counted as 1.
- `Models` (models.dfy): the classes whose fields the game updates in place.
  - `Hand` holds `cards`, `isActive` and `bet`. Its methods are `AddCard`, `ClearHand`, `GetScore`
    (the source's demotion loop, proved equal to `Score`), `Hit`, `Stick`, `Split` and `DoubleDown`.
  - `HasHands` holds the ordered hands and the split counter. Its methods are `GiveHand`,
    `GetNextHand` (a linear scan) and `Reset`.
  - `Player` adds a name and a purse. `Dealer` adds `Upcard` and `HoleCard`. In the game both extend
    `HasHands`; here each holds its `HasHands` part in the field `base`.
- `Scenarios` (scenarios.dfy): clients of the model. They replay the cases of test_models.py,
  test_cards.py and temp.py: scores, the split and double-down guards, hit, split, next hand, pick and
  the dealer's cards. Each expected outcome is derived from the contracts and the definition of `Score`.
  They add a double-down example and general clients for split, double-down and the dealer's cards.

Ranks and suits are enumerations. The game writes them as the texts "A", "2" … "10", "J", "Q", "K" and
"S", "D", "H", "C". `NewCard` parses those texts, and `GetRank`/`GetSuit` give them back.

Choices the code makes that the model keeps:

- Scoring an empty hand fails (models.py:23-24). It does not return 0.
- `split` never touches `split_count` (models.py:78-88). Only `reset` zeroes it.
- `can_split` has no limit on the number of splits (models.py:68-76).
- Pack generation rejects only counts below 0 or above 5 (cards.py:45). So 0 packs gives an empty deck.
- Whether a hand stops at five cards is the `fiveCardCap` argument of `Hit`. cards.py:139-140 applies
  the cap and models.py does not.

## Model

| member | source | states |
|---|---|---|
| Cards.ParseRank | cards.py:10-15 | a rank text is accepted exactly when it is one of the thirteen listed, and the parsed rank reads back as that text |
| Cards.ParseSuit | cards.py:9-17 | a suit text is accepted exactly when it is one of S, D, H, C, and the parsed suit reads back as that text |
| Cards.NewCard | cards.py:13-25 | construction succeeds exactly for a listed rank and suit; a bad rank is reported before a bad suit; the accessors return exactly the rank and suit given |
| Cards.PackHoldsEachCardOnce | cards.py:48-50 | one pack from the two nested loops holds every (rank, suit) card exactly once |
| Cards.ShoeContents | cards.py:47-50 | n packs hold 52·n cards, and each card appears exactly n times |
| Cards.Deck.Create | cards.py:32-40 | exactly one of the card list and the pack count must be given; a count in 0..5 yields the generated shoe; a non-empty list is taken as is; an empty list, a bad count or a missing/double argument fails |
| Cards.Deck.GenerateDeck | cards.py:42-50 | a count below 0 or above MAX_DECK_PACKS fails and changes nothing; otherwise the deck gains `Shoe(n)`, n packs in suit-major order |
| Cards.Deck.PassCards | cards.py:52-57 | an empty list fails and changes nothing; otherwise the deck becomes the given list |
| Cards.Deck.Pick | cards.py:59-62 | on an empty deck it fails and changes nothing; otherwise the old deck is the remaining cards, in their old order, followed by the returned card |
| Cards.Deck.Shuffle | cards.py:64-66 | whatever the random draws, the deck keeps its length and its multiset of cards |
| Scoring.ScoreIsBestTotal | models.py:39-46 | the score is attained by some choice of 1 or 11 per Ace; no choice within 21 exceeds it; when it is over 21 it is the total with every Ace as 1 |
| Scoring.HardTotalAfterDraw | models.py:28-34 | drawing a card adds its value (an Ace as 1) to the all-Aces-as-1 total and one to the Ace count if it is an Ace |
| Scoring.IsBlackjack | models.py:48-54 | it fails exactly on an empty hand |
| Scoring.BlackjackIsAceAndTen | models.py:48-54 | a hand is a blackjack exactly when it holds two cards, an Ace and one of 10, J, Q, K |
| Scoring.IsBust | models.py:56-57 | it fails exactly on an empty hand |
| Scoring.BustIffHardTotalOver21 | models.py:56-57 | a hand is bust exactly when it is non-empty and its total with every Ace as 1 is over 21; then that is its score, and it is not a blackjack |
| Scoring.CanSplit | models.py:68-76 | a split is allowed exactly when a double-down would be (the purse covers the bet and there are two cards) and the two cards have the same literal rank |
| Scenarios.SplitAllowedHand | models.py:68-88 | splitting a hand that may be split, with two cards left in the deck, leaves the purse non-negative and both the hand and the new last hand with two cards, each starting with a card of the pair |
| Scenarios.DoubleDownAllowedHand | models.py:90-98 | doubling down a hand that may be doubled down, on a non-empty deck, leaves the purse non-negative and the hand inactive with exactly three cards |
| Scenarios.SplitAndDoubleDownGuardExamples | test_models.py:143-194 | a pair of Aces may be split and doubled down with purse 100 and bet 10; Queen with King may not be split; a bet over the purse forbids both; three cards forbid a double-down |
| Models.Hand.constructor | models.py:6-12 | a new hand holds the given cards and bet, and is active |
| Models.Hand.AddCard | models.py:14-15 | the card is appended; nothing else changes |
| Models.Hand.ClearHand | models.py:17-18 | the hand holds no card; nothing else changes |
| Models.Hand.GetScore | models.py:20-46 | an empty hand fails; otherwise the demotion loop returns `Score`, which is the plain sum when there is no Ace |
| Models.Hand.Hit | models.py:59-63 | the deck's last card moves to the end of the hand and the deck keeps the rest in order; the hand stays active only if it was, scores under 21, and (with the cap of cards.py:139-140) does not hold exactly five cards; an empty deck fails and changes nothing |
| Models.Hand.Stick | models.py:65-66 | the hand is inactive; cards and bet unchanged |
| Models.Hand.Split | models.py:78-88 | the purse drops by the bet; the hand keeps its cards but the last, plus the deck's last card; a fresh active hand with the same bet holds the old last card plus the next deck card and is appended after the player's earlier hands; the deck loses its last two cards |
| Models.Hand.DoubleDown | models.py:93-98 | the purse drops by the old bet; exactly one card moves from the deck's end to the hand; the bet doubles; the hand ends inactive |
| Models.HasHands.constructor | has_hands.py:6-8 | no hands and a split counter of 0 |
| Models.HasHands.GiveHand | has_hands.py:10-11 | the hand is appended; earlier hands and the split counter unchanged |
| Models.HasHands.GetNextHand | has_hands.py:13-18 | returns the first hand in list order that is active; returns None exactly when no hand is active, including when there are no hands |
| Models.HasHands.Reset | has_hands.py:20-22 | no hands and a split counter of 0, whatever the state before |
| Models.Player.constructor | has_hands.py:25-29 | the given name and purse, and a fresh empty set of hands |
| Models.Dealer.constructor | has_hands.py:32-34 | a fresh empty set of hands |
| Scenarios.DealerCardsInDealingOrder | has_hands.py:36-40 | for a dealer dealt c1 then c2 into its first hand, the hole card is c1 and the upcard is c2 |
| Scenarios.ScoreAceSevenSix | test_models.py:83-85 | [A,7,6] scores 14 |
| Scenarios.ScoreAceSevenSixAndMore | test_models.py:88-97 | [A,7,6,7] scores 21 and [A,7,6,8] scores 22 |
| Scenarios.ScoreExamplesSeveralAces | test_models.py:63-80 | [A,A] scores 12, [A,A,A] 13, [A,10,A] 12 |

## Left out

- The round engine and payout resolution (dealing, the dealer's turn, settling bets) are not in the
  modelled files. cards.py, models.py and has_hands.py do not define them, so they are not invented here.
- interface.py, graphics.py and blackjack.py are console input, re-prompt loops and rendering. The core
  takes their results as arguments.
- Cards.Deck.Shuffle: the random numbers that `Random(seed)` produces are the parameter `draws`. The
  library's generator is not modelled, so the order a given seed produces is not captured; only that
  the result is a permutation.
- Models.Hand.Split: requires at least one card in the hand and two in the deck. With fewer, the source
  raises IndexError midway, after the purse has been debited. That partial state is not modelled.
- Models.Hand.DoubleDown: requires a card in the deck. With an empty deck, the source fails after
  debiting the purse.
- Models.Dealer.Upcard and Models.Dealer.HoleCard: require a first hand with enough cards. The source
  raises IndexError otherwise.
- A hand's bet is an integer. The unset bet (None) of a hand created without one is not modelled. The
  money actions on such a hand fail with TypeError in the source.
- The `isinstance` checks of cards.py (card lists made of Card objects, an int pack count) are
  guaranteed by the types.
- Lists passed into `Deck(cards=…)` and `Hand(cards=…)` are shared with the caller in the source. The
  model copies them as values, so later changes through the caller's list are not reflected. Hands
  themselves are objects and are shared by reference, as in the source.
- Cards are values: two cards with the same rank and suit are equal. In the source they are distinct
  objects, which matters only to identity comparisons.
- The `Hand` of cards.py beyond the five-card rule of `hit` is a half-migrated copy of models.py's. It
  reads fields that do not exist there, so models.py is the reference for it. models.py's own
  `HasHands.reset_hand` clears the hands only; the model follows has_hands.py's `reset`.
