/**
 * Hands and the participants holding them (`Hand`, `HasHands`, `Player`, `Dealer` of models.py and has_hands.py).
 * Player and Dealer extend HasHands in the game; here each holds its HasHands part in the field `base`.
 */
module Models {
  import opened Cards
  import opened Scoring

  /** One hand: its cards in the order they were dealt, whether it still takes actions, and its bet. */
  class Hand {
    var cards: seq<Card>
    var isActive: bool
    var bet: int

    constructor (cards: seq<Card>, bet: int)
      ensures this.cards == cards && isActive && this.bet == bet
    {
      this.cards := cards;
      isActive := true;
      this.bet := bet;
    }

    method AddCard(card: Card)
      modifies this
      ensures cards == old(cards) + [card]
      ensures isActive == old(isActive) && bet == old(bet)
    {
      cards := cards + [card];
    }

    method ClearHand()
      modifies this
      ensures cards == []
      ensures isActive == old(isActive) && bet == old(bet)
    {
      cards := [];
    }

    /**
     * Counts every Ace as 11, then demotes Aces to 1 one at a time while the total is over 21.
     * The result is the best total of ScoreIsBestTotal; scoring an empty hand fails.
     */
    method GetScore() returns (r: Result<int>)
      ensures cards == [] ==> r == Err(EmptyHand)
      ensures cards != [] ==> r == Ok(Score(cards))
      ensures cards != [] && AceCount(cards) == 0 ==> r == Ok(PipSum(cards))
    {
      if |cards| == 0 {
        return Err(EmptyHand);
      }
      var aces := AceCount(cards);
      var score := PipSum(cards);
      if aces == 0 {
        return Ok(score);
      }
      var eleven := aces;
      while 11 * eleven + (aces - eleven) + score > 21 && eleven > 0
        invariant 0 <= eleven <= aces
        invariant forall j :: eleven < j <= aces ==> 11 * j + (aces - j) + score > 21
      {
        eleven := eleven - 1;
      }
      if eleven == 0 {
        assert 11 * 1 + (aces - 1) + score > 21;
      } else {
        assert eleven == 1;
      }
      r := Ok(11 * eleven + (aces - eleven) + score);
    }

    /**
     * Draws the last card of the deck into the hand. The hand stops taking actions once it scores 21
     * or more, and, when `fiveCardCap` holds, once it holds five cards; it is never reactivated.
     * On an empty deck nothing changes and the draw fails.
     */
    method Hit(deck: Deck, fiveCardCap: bool) returns (o: Outcome)
      modifies this, deck
      ensures old(deck.cards) == [] ==>
        o == Fail(EmptyDeck) && deck.cards == old(deck.cards) && cards == old(cards) && isActive == old(isActive)
      ensures old(deck.cards) != [] ==>
        var d := old(deck.cards);
        o == Pass && deck.cards == d[..|d| - 1] && cards == old(cards) + [d[|d| - 1]]
      ensures old(deck.cards) != [] ==>
        isActive == (old(isActive) && Score(cards) < 21 && !(fiveCardCap && |cards| == 5))
      ensures bet == old(bet)
    {
      var drawn := deck.Pick();
      if drawn.Err? {
        return Fail(drawn.error);
      }
      AddCard(drawn.value);
      var score := GetScore();
      if score.value >= 21 {
        isActive := false;
      }
      if fiveCardCap && |cards| == 5 {
        isActive := false;
      }
      o := Pass;
    }

    method Stick()
      modifies this
      ensures !isActive
      ensures cards == old(cards) && bet == old(bet)
    {
      isActive := false;
    }

    /**
     * Takes a second bet from the player's purse, moves the hand's last card into a new hand with the
     * same bet, deals the deck's last card to this hand and the next one to the new hand, and gives the
     * new hand to the player, after all the hands they had.
     */
    method Split(deck: Deck, player: Player)
      requires |cards| >= 1 && |deck.cards| >= 2
      modifies this, deck, player, player.base
      ensures player.purse == old(player.purse) - old(bet)
      ensures var d := old(deck.cards);
        deck.cards == d[..|d| - 2] && cards == old(cards)[..|old(cards)| - 1] + [d[|d| - 1]]
      ensures bet == old(bet) && isActive == old(isActive)
      ensures |player.base.hands| == |old(player.base.hands)| + 1
      ensures player.base.hands[..|old(player.base.hands)|] == old(player.base.hands)
      ensures var h := player.base.hands[|player.base.hands| - 1];
        var d := old(deck.cards);
        fresh(h) && h.cards == [old(cards)[|old(cards)| - 1], d[|d| - 2]] && h.bet == old(bet) && h.isActive
      ensures player.base.splitCount == old(player.base.splitCount) && player.name == old(player.name)
    {
      player.purse := player.purse - bet;
      var second := cards[|cards| - 1];
      cards := cards[..|cards| - 1];
      var splitHand := new Hand([second], bet);
      var first := deck.Pick();
      AddCard(first.value);
      var next := deck.Pick();
      splitHand.AddCard(next.value);
      player.base.GiveHand(splitHand);
    }

    /** Takes a second bet from the player's purse, draws exactly one card, doubles the bet and ends the hand. */
    method DoubleDown(deck: Deck, player: Player)
      requires |deck.cards| >= 1
      modifies this, deck, player
      ensures player.purse == old(player.purse) - old(bet)
      ensures var d := old(deck.cards);
        deck.cards == d[..|d| - 1] && cards == old(cards) + [d[|d| - 1]]
      ensures bet == 2 * old(bet) && !isActive
      ensures player.name == old(player.name)
    {
      player.purse := player.purse - bet;
      var o := Hit(deck, false);
      bet := bet * 2;
      isActive := false;
    }
  }

  /** The hands a participant holds, in the order they were given, and the round's split counter. */
  class HasHands {
    var hands: seq<Hand>
    var splitCount: int

    constructor ()
      ensures hands == [] && splitCount == 0
    {
      hands := [];
      splitCount := 0;
    }

    method GiveHand(hand: Hand)
      modifies this
      ensures hands == old(hands) + [hand]
      ensures splitCount == old(splitCount)
    {
      hands := hands + [hand];
    }

    /** The first hand, in the order given, that still takes actions; None when no hand does. */
    method GetNextHand() returns (next: Option<Hand>)
      ensures next.Some? ==>
        exists i :: 0 <= i < |hands| && hands[i] == next.value && hands[i].isActive &&
          forall j :: 0 <= j < i ==> !hands[j].isActive
      ensures next.None? <==> forall i :: 0 <= i < |hands| ==> !hands[i].isActive
    {
      for i := 0 to |hands|
        invariant forall j :: 0 <= j < i ==> !hands[j].isActive
      {
        if hands[i].isActive {
          return Some(hands[i]);
        }
      }
      next := None;
    }

    method Reset()
      modifies this
      ensures hands == [] && splitCount == 0
    {
      hands := [];
      splitCount := 0;
    }
  }

  /** A player: a name, the money in their purse, and their hands. */
  class Player {
    var name: string
    var purse: int
    const base: HasHands

    constructor (name: string, purse: int)
      ensures this.name == name && this.purse == purse
      ensures fresh(base) && base.hands == [] && base.splitCount == 0
    {
      this.name := name;
      this.purse := purse;
      base := new HasHands();
    }
  }

  /** The dealer: one hand per round, whose first card is dealt face down. */
  class Dealer {
    const base: HasHands

    constructor ()
      ensures fresh(base) && base.hands == [] && base.splitCount == 0
    {
      base := new HasHands();
    }

    /** The card shown face up: the second card dealt to the first hand. */
    function Upcard(): Card
      reads base, base.hands
      requires |base.hands| > 0 && |base.hands[0].cards| >= 2
    {
      base.hands[0].cards[1]
    }

    /** The card dealt face down: the first card of the first hand. */
    function HoleCard(): Card
      reads base, base.hands
      requires |base.hands| > 0 && |base.hands[0].cards| >= 1
    {
      base.hands[0].cards[0]
    }
  }
}
