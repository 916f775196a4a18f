/**
 * Clients of the model. The score, hit, split, next-hand and pick cases replay test_models.py and
 * test_cards.py, and the dealer's cards the cases of temp.py; each expected outcome is derived from the
 * contracts and the definition of Score. A double-down example and general clients for split,
 * double-down and the dealer's cards are added.
 */
module Scenarios {
  import opened Cards
  import opened Scoring
  import opened Models

  /** The scores test_models.py expects of hands without an Ace or with one. */
  lemma ScoreExamplesOneAce()
    ensures Score([Card(Two, Hearts), Card(Five, Clubs), Card(Nine, Diamonds)]) == 16
    ensures Score([Card(Ace, Hearts), Card(Five, Clubs)]) == 16
    ensures Score([Card(Ace, Hearts), Card(Five, Clubs), Card(Nine, Diamonds)]) == 15
    ensures Score([Card(Ace, Hearts), Card(King, Clubs)]) == 21
  {
  }

  /** The scores test_models.py expects of hands with several Aces. */
  lemma ScoreExamplesSeveralAces()
    ensures Score([Card(Ace, Hearts), Card(Ace, Clubs)]) == 12
    ensures Score([Card(Ace, Hearts), Card(Ace, Clubs), Card(Ace, Diamonds)]) == 13
    ensures Score([Card(Ace, Hearts), Card(Ten, Clubs), Card(Ace, Diamonds)]) == 12
  {
  }

  /** [A,7,6] scores 14: the Ace must count 1. */
  lemma ScoreAceSevenSix()
    ensures AceCount([Card(Ace, Hearts), Card(Seven, Clubs), Card(Six, Diamonds)]) == 1
    ensures HardTotal([Card(Ace, Hearts), Card(Seven, Clubs), Card(Six, Diamonds)]) == 14
    ensures Score([Card(Ace, Hearts), Card(Seven, Clubs), Card(Six, Diamonds)]) == 14
  {
  }

  /** Drawing a 7 to [A,7,6] makes 21, drawing an 8 a bust 22. */
  lemma ScoreAceSevenSixAndMore()
    ensures Score([Card(Ace, Hearts), Card(Seven, Clubs), Card(Six, Diamonds), Card(Seven, Diamonds)]) == 21
    ensures Score([Card(Ace, Hearts), Card(Seven, Clubs), Card(Six, Diamonds), Card(Eight, Diamonds)]) == 22
  {
    var start := [Card(Ace, Hearts), Card(Seven, Clubs), Card(Six, Diamonds)];
    ScoreAceSevenSix();
    HardTotalAfterDraw(start, Card(Seven, Diamonds));
    HardTotalAfterDraw(start, Card(Eight, Diamonds));
    assert start + [Card(Seven, Diamonds)] == [Card(Ace, Hearts), Card(Seven, Clubs), Card(Six, Diamonds), Card(Seven, Diamonds)];
    assert start + [Card(Eight, Diamonds)] == [Card(Ace, Hearts), Card(Seven, Clubs), Card(Six, Diamonds), Card(Eight, Diamonds)];
  }

  /** The split and double-down guards on the hands test_models.py checks; King with Queen is not a pair. */
  lemma SplitAndDoubleDownGuardExamples()
    ensures CanSplit([Card(Ace, Hearts), Card(Ace, Diamonds)], 10, 100)
    ensures !CanSplit([Card(Queen, Hearts), Card(King, Diamonds)], 10, 100)
    ensures !CanSplit([Card(Queen, Hearts), Card(Queen, Diamonds)], 20, 10)
    ensures CanDoubleDown([Card(Ace, Hearts), Card(Ace, Diamonds)], 10, 100)
    ensures !CanDoubleDown([Card(Ace, Hearts), Card(Ace, Diamonds), Card(Four, Clubs)], 10, 100)
    ensures !CanDoubleDown([Card(Ace, Hearts), Card(Ace, Diamonds)], 20, 10)
  {
  }

  method HitKeepsHandActive() {
    var deck := new Deck();
    var _ := deck.PassCards([Card(Queen, Hearts), Card(King, Diamonds), Card(Five, Clubs)]);
    var hand := new Hand([Card(Ace, Hearts), Card(Nine, Diamonds)], 0);
    var o := hand.Hit(deck, false);
    assert hand.cards == [Card(Ace, Hearts), Card(Nine, Diamonds), Card(Five, Clubs)];
    assert Score([Card(Ace, Hearts), Card(Nine, Diamonds), Card(Five, Clubs)]) == 15;
    assert hand.isActive;
    assert |deck.cards| == 2;
  }

  method HitEndsHandOver21() {
    var deck := new Deck();
    var _ := deck.PassCards([Card(Queen, Hearts), Card(King, Diamonds), Card(Five, Clubs)]);
    var hand := new Hand([Card(Ten, Hearts), Card(Nine, Diamonds)], 0);
    var o := hand.Hit(deck, false);
    assert hand.cards == [Card(Ten, Hearts), Card(Nine, Diamonds), Card(Five, Clubs)];
    assert Score([Card(Ten, Hearts), Card(Nine, Diamonds), Card(Five, Clubs)]) == 24;
    assert !hand.isActive;
    assert |deck.cards| == 2;
  }

  method SplitPairOfAces() {
    var deck := new Deck();
    var _ := deck.PassCards([Card(Queen, Hearts), Card(King, Diamonds), Card(Five, Clubs)]);
    var player := new Player("test_name", 100);
    var hand := new Hand([Card(Ace, Hearts), Card(Ace, Diamonds)], 10);
    assert CanSplit(hand.cards, hand.bet, player.purse);
    player.base.GiveHand(hand);
    hand.Split(deck, player);
    assert hand.cards == [Card(Ace, Hearts), Card(Five, Clubs)];
    assert |player.base.hands| == 2;
    assert player.base.hands[1].cards == [Card(Ace, Diamonds), Card(King, Diamonds)];
    assert deck.cards == [Card(Queen, Hearts)];
    assert player.purse == 90;
    assert hand.bet == 10 && player.base.hands[1].bet == 10;
  }

  method DoubleDownOnEleven() {
    var deck := new Deck();
    var _ := deck.PassCards([Card(Two, Clubs), Card(Nine, Spades)]);
    var player := new Player("test_name", 90);
    var hand := new Hand([Card(Seven, Hearts), Card(Four, Hearts)], 10);
    assert CanDoubleDown(hand.cards, hand.bet, player.purse);
    hand.DoubleDown(deck, player);
    assert player.purse == 80 && hand.bet == 20;
    assert |hand.cards| == 3 && !hand.isActive;
  }

  method NextHandSkipsFinishedHands() {
    var hand1 := new Hand([Card(Ace, Hearts)], 0);
    hand1.isActive := false;
    var hand2 := new Hand([Card(Ace, Spades)], 0);
    var hand3 := new Hand([Card(Ace, Diamonds)], 0);
    var hasHands := new HasHands();
    hasHands.GiveHand(hand1);
    hasHands.GiveHand(hand2);
    hasHands.GiveHand(hand3);
    var next := hasHands.GetNextHand();
    assert hasHands.hands[1].isActive;
    assert next == Some(hand2);
    hand2.Stick();
    hand3.Stick();
    next := hasHands.GetNextHand();
    assert !hasHands.hands[0].isActive && !hasHands.hands[1].isActive && !hasHands.hands[2].isActive;
    assert next == None;
  }

  method PickTakesTopCard() {
    var created := Deck.Create(Some([Card(Four, Diamonds), Card(Ace, Hearts), Card(Queen, Clubs), Card(Seven, Spades), Card(Three, Hearts)]), None);
    var deck := created.value;
    assert deck.cards[|deck.cards| - 1] == Card(Three, Hearts);
    var card := deck.Pick();
    assert card == Ok(Card(Three, Hearts));
    assert |deck.cards| == 4;
    var missing := Deck.Create(None, None);
    assert missing == Err(MissingArguments);
  }

  /**
   * A hand that may be split, split with at least two cards left in the deck: the purse stays
   * non-negative, and the hand and the new hand each hold one card of the pair plus one new card.
   */
  method SplitAllowedHand(hand: Hand, deck: Deck, player: Player)
    requires CanSplit(hand.cards, hand.bet, player.purse) && |deck.cards| >= 2
    modifies hand, deck, player, player.base
    ensures player.purse >= 0
    ensures |hand.cards| == 2 && |player.base.hands| >= 1
    ensures var h := player.base.hands[|player.base.hands| - 1];
      |h.cards| == 2 && h.cards[0].rank == hand.cards[0].rank == old(hand.cards[0].rank)
  {
    hand.Split(deck, player);
  }

  /**
   * A hand that may be doubled down, doubled down on a non-empty deck: the purse stays non-negative,
   * and the hand ends with exactly three cards and takes no further action.
   */
  method DoubleDownAllowedHand(hand: Hand, deck: Deck, player: Player)
    requires CanDoubleDown(hand.cards, hand.bet, player.purse) && |deck.cards| >= 1
    modifies hand, deck, player
    ensures player.purse >= 0
    ensures |hand.cards| == 3 && !hand.isActive
  {
    hand.DoubleDown(deck, player);
  }

  /** Dealt c1 then c2, the dealer hides c1 and shows c2. */
  method DealerCardsInDealingOrder(c1: Card, c2: Card) returns (dealer: Dealer)
    ensures |dealer.base.hands| > 0 && |dealer.base.hands[0].cards| >= 2
    ensures dealer.HoleCard() == c1 && dealer.Upcard() == c2
  {
    dealer := new Dealer();
    var hand := new Hand([], 0);
    dealer.base.GiveHand(hand);
    hand.AddCard(c1);
    hand.AddCard(c2);
  }
}
