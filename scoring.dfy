/** The value of a hand and the pure predicates on it (`get_score`, `is_blackjack`, `is_bust`, `can_split`, `can_double_down`). */
module Scoring {
  import opened Cards

  /** Points of a rank other than the Ace: its number, with J, Q and K counted as 10. */
  function Points(r: Rank): (v: nat)
    requires r != Ace
    ensures 2 <= v <= 10
    ensures v == 10 <==> r in {Ten, Jack, Queen, King}
  {
    match r
    case Two => 2
    case Three => 3
    case Four => 4
    case Five => 5
    case Six => 6
    case Seven => 7
    case Eight => 8
    case Nine => 9
    case Ten => 10
    case Jack => 10
    case Queen => 10
    case King => 10
  }

  /** Number of Aces in the hand. */
  function AceCount(cards: seq<Card>): (k: nat)
    ensures k <= |cards|
  {
    if cards == [] then 0
    else (if cards[0].rank == Ace then 1 else 0) + AceCount(cards[1..])
  }

  /** Sum of the cards that are not Aces. */
  function PipSum(cards: seq<Card>): nat
  {
    if cards == [] then 0
    else (if cards[0].rank == Ace then 0 else Points(cards[0].rank)) + PipSum(cards[1..])
  }

  /** The total with every Ace counted as 1. */
  function HardTotal(cards: seq<Card>): nat
  {
    PipSum(cards) + AceCount(cards)
  }

  /**
   * The score of a hand: the largest total not over 21 that counting each Ace as 1 or 11 can give,
   * and the total with every Ace as 1 when every choice is over 21 (ScoreIsBestTotal).
   * Since two Aces at 11 already make 22, at most one Ace is ever worth 11.
   */
  function Score(cards: seq<Card>): (s: nat)
  {
    var hard := HardTotal(cards);
    if AceCount(cards) > 0 && hard + 10 <= 21 then hard + 10 else hard
  }

  /** The value of one card when an Ace is counted as 11 if `high` holds and as 1 otherwise. */
  function CardValue(c: Card, high: bool): nat
  {
    if c.rank == Ace then (if high then 11 else 1) else Points(c.rank)
  }

  /** The total of `cards` under one choice per card of how an Ace counts (`high[i]` is ignored for a non-Ace). */
  function TotalWith(cards: seq<Card>, high: seq<bool>): nat
    requires |high| == |cards|
  {
    if cards == [] then 0 else CardValue(cards[0], high[0]) + TotalWith(cards[1..], high[1..])
  }

  /** Number of Aces that `high` counts as 11. */
  function HighAces(cards: seq<Card>, high: seq<bool>): nat
    requires |high| == |cards|
  {
    if cards == [] then 0
    else (if cards[0].rank == Ace && high[0] then 1 else 0) + HighAces(cards[1..], high[1..])
  }

  /** The choice that counts every Ace as 1. */
  function AllLow(n: nat): (high: seq<bool>)
    ensures |high| == n
  {
    seq(n, i => false)
  }

  /** The choice that counts the first Ace of the hand as 11 and every other as 1. */
  function FirstAceHigh(cards: seq<Card>): (high: seq<bool>)
    ensures |high| == |cards|
  {
    if cards == [] then []
    else if cards[0].rank == Ace then [true] + AllLow(|cards| - 1)
    else [false] + FirstAceHigh(cards[1..])
  }

  /** Any choice gives the all-Aces-as-1 total plus 10 for each Ace it counts as 11. */
  lemma {:induction false} TotalWithCountsHighAces(cards: seq<Card>, high: seq<bool>)
    requires |high| == |cards|
    ensures HighAces(cards, high) <= AceCount(cards)
    ensures TotalWith(cards, high) == HardTotal(cards) + 10 * HighAces(cards, high)
  {
    if cards != [] {
      TotalWithCountsHighAces(cards[1..], high[1..]);
    }
  }

  lemma {:induction false} AllLowHasNoHighAce(cards: seq<Card>)
    ensures HighAces(cards, AllLow(|cards|)) == 0
  {
    if cards != [] {
      assert AllLow(|cards|)[1..] == AllLow(|cards| - 1);
      AllLowHasNoHighAce(cards[1..]);
    }
  }

  lemma {:induction false} FirstAceHighHasOneHighAce(cards: seq<Card>)
    requires AceCount(cards) > 0
    ensures HighAces(cards, FirstAceHigh(cards)) == 1
  {
    if cards[0].rank == Ace {
      AllLowHasNoHighAce(cards[1..]);
    } else {
      FirstAceHighHasOneHighAce(cards[1..]);
    }
  }

  /** Drawing a card adds its value, with an Ace as 1, to the total with every Ace as 1. */
  lemma {:induction false} HardTotalAfterDraw(cards: seq<Card>, c: Card)
    ensures AceCount(cards + [c]) == AceCount(cards) + (if c.rank == Ace then 1 else 0)
    ensures HardTotal(cards + [c]) == HardTotal(cards) + CardValue(c, false)
  {
    if cards != [] {
      assert (cards + [c])[1..] == cards[1..] + [c];
      HardTotalAfterDraw(cards[1..], c);
    } else {
      assert [c][1..] == [];
    }
  }

  /** Some choice of Ace values attains the score. */
  lemma {:induction false} ScoreIsAttained(cards: seq<Card>)
    ensures exists high :: |high| == |cards| && TotalWith(cards, high) == Score(cards)
  {
    if AceCount(cards) > 0 && HardTotal(cards) + 10 <= 21 {
      var one := FirstAceHigh(cards);
      TotalWithCountsHighAces(cards, one);
      FirstAceHighHasOneHighAce(cards);
      assert TotalWith(cards, one) == Score(cards);
    } else {
      var low := AllLow(|cards|);
      TotalWithCountsHighAces(cards, low);
      AllLowHasNoHighAce(cards);
      assert TotalWith(cards, low) == Score(cards);
    }
  }

  /** A choice of Ace values whose total stays within 21 gives no more than the score, which is then within 21 too. */
  lemma {:induction false} ScoreBeatsEveryTotalWithin21(cards: seq<Card>, high: seq<bool>)
    requires |high| == |cards| && TotalWith(cards, high) <= 21
    ensures TotalWith(cards, high) <= Score(cards) <= 21
  {
    TotalWithCountsHighAces(cards, high);
  }

  /**
   * The score is a total some choice of Ace values attains; no choice that stays within 21 beats it;
   * and when it is over 21 (so every choice is over 21) it is the total with every Ace counted as 1.
   */
  lemma {:induction false} ScoreIsBestTotal(cards: seq<Card>)
    ensures exists high :: |high| == |cards| && TotalWith(cards, high) == Score(cards)
    ensures forall high :: |high| == |cards| && TotalWith(cards, high) <= 21 ==>
      TotalWith(cards, high) <= Score(cards) <= 21
    ensures Score(cards) > 21 ==> Score(cards) == TotalWith(cards, AllLow(|cards|))
  {
    ScoreIsAttained(cards);
    forall high | |high| == |cards| && TotalWith(cards, high) <= 21
      ensures TotalWith(cards, high) <= Score(cards) <= 21
    {
      ScoreBeatsEveryTotalWithin21(cards, high);
    }
    TotalWithCountsHighAces(cards, AllLow(|cards|));
    AllLowHasNoHighAce(cards);
  }

  /** Scoring an empty hand fails; otherwise a blackjack is a two-card hand worth 21. */
  function IsBlackjack(cards: seq<Card>): (r: Result<bool>)
    ensures r.Err? <==> cards == []
  {
    if cards == [] then Err(EmptyHand) else Ok(Score(cards) == 21 && |cards| == 2)
  }

  /** Scoring an empty hand fails; otherwise a hand is bust when its score is over 21. */
  function IsBust(cards: seq<Card>): (r: Result<bool>)
    ensures r.Err? <==> cards == []
  {
    if cards == [] then Err(EmptyHand) else Ok(Score(cards) > 21)
  }

  /** A blackjack is exactly an Ace together with a ten-valued card (10, J, Q or K). */
  lemma {:induction false} BlackjackIsAceAndTen(cards: seq<Card>)
    ensures IsBlackjack(cards) == Ok(true) <==>
      |cards| == 2 &&
      ((cards[0].rank == Ace && cards[1].rank in {Ten, Jack, Queen, King}) ||
       (cards[1].rank == Ace && cards[0].rank in {Ten, Jack, Queen, King}))
  {
    if |cards| == 2 {
      var rest := cards[1..];
      assert rest[0] == cards[1] && rest[1..] == [];
      assert AceCount(rest) == if cards[1].rank == Ace then 1 else 0;
      assert PipSum(rest) == if cards[1].rank == Ace then 0 else Points(cards[1].rank);
    }
  }

  /** A hand is bust exactly when even counting every Ace as 1 exceeds 21, and then that is its score. */
  lemma {:induction false} BustIffHardTotalOver21(cards: seq<Card>)
    ensures IsBust(cards) == Ok(true) <==> cards != [] && HardTotal(cards) > 21
    ensures IsBust(cards) == Ok(true) ==> Score(cards) == HardTotal(cards)
    ensures IsBust(cards) == Ok(true) ==> IsBlackjack(cards) == Ok(false)
  {
  }

  /** The player can pay a second bet and the hand is a pair of cards with the same literal rank. */
  function CanSplit(cards: seq<Card>, bet: int, purse: int): (b: bool)
    ensures b ==> |cards| == 2 && cards[0].rank == cards[1].rank && purse >= bet
    ensures b <==> CanDoubleDown(cards, bet, purse) && cards[0].rank == cards[1].rank
  {
    purse >= bet && |cards| == 2 && cards[0].rank == cards[1].rank
  }

  /** The player can pay a second bet and the hand holds just its first two cards. */
  function CanDoubleDown(cards: seq<Card>, bet: int, purse: int): bool
  {
    purse >= bet && |cards| == 2
  }
}
