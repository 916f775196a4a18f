/** Playing cards and the shoe they are drawn from (`Card` and `Deck` of cards.py). */
module Cards {

  /** The reasons the card and deck operations fail (each a ValueError in the game). */
  datatype Error =
    | InvalidRank        // Card: rank text outside RANK_NAMES
    | InvalidSuit        // Card: suit text outside SUIT_NAMES
    | InvalidDeckCount   // Deck: number of packs outside 0..MAX_DECK_PACKS
    | EmptyCardList      // Deck: an explicit card list that is empty
    | MissingArguments   // Deck: neither or both of the card list and the pack count given
    | EmptyDeck          // Deck.pick on a deck with no cards left
    | EmptyHand          // Hand: scoring a hand that holds no card

  datatype Option<T> = None | Some(value: T)

  datatype Result<T> = Ok(value: T) | Err(error: Error)

  datatype Outcome = Pass | Fail(error: Error)

  /** Largest number of 52-card packs a generated deck may hold. */
  const MAX_DECK_PACKS: int := 5

  datatype Rank = Ace | Two | Three | Four | Five | Six | Seven | Eight | Nine | Ten | Jack | Queen | King
  datatype Suit = Spades | Diamonds | Hearts | Clubs

  /** The ranks and suits in the order the game lists them, which is the order a pack is generated in. */
  const RANKS: seq<Rank> := [Ace, Two, Three, Four, Five, Six, Seven, Eight, Nine, Ten, Jack, Queen, King]
  const SUITS: seq<Suit> := [Spades, Diamonds, Hearts, Clubs]

  /** The text the game writes each rank and suit as. */
  const RANK_NAMES: seq<string> := ["A", "2", "3", "4", "5", "6", "7", "8", "9", "10", "J", "Q", "K"]
  const SUIT_NAMES: seq<string> := ["S", "D", "H", "C"]

  function RankName(r: Rank): string
  {
    match r
    case Ace => "A"
    case Two => "2"
    case Three => "3"
    case Four => "4"
    case Five => "5"
    case Six => "6"
    case Seven => "7"
    case Eight => "8"
    case Nine => "9"
    case Ten => "10"
    case Jack => "J"
    case Queen => "Q"
    case King => "K"
  }

  function SuitName(s: Suit): string
  {
    match s
    case Spades => "S"
    case Diamonds => "D"
    case Hearts => "H"
    case Clubs => "C"
  }

  /** The rank written as `text`, if any. */
  function ParseRank(text: string): (r: Option<Rank>)
    ensures r.Some? <==> text in RANK_NAMES
    ensures r.Some? ==> RankName(r.value) == text
  {
    if text == "A" then Some(Ace)
    else if text == "2" then Some(Two)
    else if text == "3" then Some(Three)
    else if text == "4" then Some(Four)
    else if text == "5" then Some(Five)
    else if text == "6" then Some(Six)
    else if text == "7" then Some(Seven)
    else if text == "8" then Some(Eight)
    else if text == "9" then Some(Nine)
    else if text == "10" then Some(Ten)
    else if text == "J" then Some(Jack)
    else if text == "Q" then Some(Queen)
    else if text == "K" then Some(King)
    else None
  }

  /** The suit written as `text`, if any. */
  function ParseSuit(text: string): (s: Option<Suit>)
    ensures s.Some? <==> text in SUIT_NAMES
    ensures s.Some? ==> SuitName(s.value) == text
  {
    if text == "S" then Some(Spades)
    else if text == "D" then Some(Diamonds)
    else if text == "H" then Some(Hearts)
    else if text == "C" then Some(Clubs)
    else None
  }

  /** Every rank and suit reads back from its name, so the names are all different. */
  lemma NamesRoundTrip(r: Rank, s: Suit)
    ensures ParseRank(RankName(r)) == Some(r)
    ensures ParseSuit(SuitName(s)) == Some(s)
  {
  }

  /** A card: one of the thirteen ranks and one of the four suits. */
  datatype Card = Card(rank: Rank, suit: Suit)

  /** The text rank of a card. */
  function GetRank(c: Card): string
  {
    RankName(c.rank)
  }

  /** The text suit of a card. */
  function GetSuit(c: Card): string
  {
    SuitName(c.suit)
  }

  /**
   * The validating constructor: the rank is checked before the suit, and a card that is built
   * gives back exactly the rank and suit it was built from.
   */
  function NewCard(rank: string, suit: string): (r: Result<Card>)
    ensures r.Ok? <==> rank in RANK_NAMES && suit in SUIT_NAMES
    ensures r.Ok? ==> GetRank(r.value) == rank && GetSuit(r.value) == suit
    ensures rank !in RANK_NAMES ==> r == Err(InvalidRank)
    ensures rank in RANK_NAMES && suit !in SUIT_NAMES ==> r == Err(InvalidSuit)
  {
    match (ParseRank(rank), ParseSuit(suit))
    case (None, _) => Err(InvalidRank)
    case (_, None) => Err(InvalidSuit)
    case (Some(r), Some(s)) => Ok(Card(r, s))
  }

  /** No rank or suit is listed twice. */
  lemma {:induction false} RanksAndSuitsDistinct()
    ensures forall i, j :: 0 <= i < j < |RANKS| ==> RANKS[i] != RANKS[j]
    ensures forall i, j :: 0 <= i < j < |SUITS| ==> SUITS[i] != SUITS[j]
  {
  }

  /** Every rank and suit is listed. */
  lemma {:induction false} RanksAndSuitsComplete(c: Card)
    ensures exists ri :: 0 <= ri < |RANKS| && RANKS[ri] == c.rank
    ensures exists si :: 0 <= si < |SUITS| && SUITS[si] == c.suit
  {
    match c.rank {
    case Ace => assert RANKS[0] == c.rank;
    case Two => assert RANKS[1] == c.rank;
    case Three => assert RANKS[2] == c.rank;
    case Four => assert RANKS[3] == c.rank;
    case Five => assert RANKS[4] == c.rank;
    case Six => assert RANKS[5] == c.rank;
    case Seven => assert RANKS[6] == c.rank;
    case Eight => assert RANKS[7] == c.rank;
    case Nine => assert RANKS[8] == c.rank;
    case Ten => assert RANKS[9] == c.rank;
    case Jack => assert RANKS[10] == c.rank;
    case Queen => assert RANKS[11] == c.rank;
    case King => assert RANKS[12] == c.rank;
    }
    match c.suit {
    case Spades => assert SUITS[0] == c.suit;
    case Diamonds => assert SUITS[1] == c.suit;
    case Hearts => assert SUITS[2] == c.suit;
    case Clubs => assert SUITS[3] == c.suit;
    }
  }

  /** One pack in generation order: suit by suit, and within a suit rank by rank. */
  function Pack(): (p: seq<Card>)
    ensures |p| == |SUITS| * |RANKS| == 52
  {
    seq(52, i requires 0 <= i < 52 => Card(RANKS[i % 13], SUITS[i / 13]))
  }

  lemma PackAt(si: nat, ri: nat)
    requires si < |SUITS| && ri < |RANKS|
    ensures Pack()[13 * si + ri] == Card(RANKS[ri], SUITS[si])
  {
  }

  /** The first 13 * si + ri + 1 cards of a pack extend the first 13 * si + ri by rank ri of suit si. */
  lemma PackPrefixStep(si: nat, ri: nat)
    requires si < |SUITS| && ri < |RANKS|
    ensures Pack()[..13 * si + ri + 1] == Pack()[..13 * si + ri] + [Card(RANKS[ri], SUITS[si])]
  {
    PackAt(si, ri);
  }

  /** The cards of `n` packs, one pack after another. */
  function Shoe(n: nat): seq<Card>
  {
    if n == 0 then [] else Shoe(n - 1) + Pack()
  }

  ghost predicate Distinct<T>(s: seq<T>)
  {
    forall i, j :: 0 <= i < j < |s| ==> s[i] != s[j]
  }

  lemma {:induction false} DistinctCount<T>(s: seq<T>, x: T)
    requires Distinct(s)
    ensures multiset(s)[x] == if x in s then 1 else 0
  {
    if s != [] {
      var t := s[..|s| - 1];
      assert s == t + [s[|s| - 1]];
      assert Distinct(t);
      DistinctCount(t, x);
      if x == s[|s| - 1] {
        assert x !in t;
      }
    }
  }

  /** A pack holds every card exactly once. */
  lemma PackHoldsEachCardOnce(c: Card)
    ensures multiset(Pack())[c] == 1
  {
    var p := Pack();
    RanksAndSuitsDistinct();
    forall i, j | 0 <= i < j < |p| ensures p[i] != p[j] {
      if i / 13 == j / 13 {
        assert i % 13 != j % 13;
      }
    }
    RanksAndSuitsComplete(c);
    var ri :| 0 <= ri < |RANKS| && RANKS[ri] == c.rank;
    var si :| 0 <= si < |SUITS| && SUITS[si] == c.suit;
    PackAt(si, ri);
    assert p[13 * si + ri] == c;
    DistinctCount(p, c);
  }

  /** A shoe of `n` packs has 52 * n cards, and holds every card exactly `n` times. */
  lemma {:induction false} ShoeContents(n: nat, c: Card)
    ensures |Shoe(n)| == 52 * n
    ensures multiset(Shoe(n))[c] == n
  {
    if n > 0 {
      ShoeContents(n - 1, c);
      PackHoldsEachCardOnce(c);
    }
  }

  /** The shoe: the list of cards still to be dealt; `Pick` takes from its end. */
  class Deck {
    var cards: seq<Card>

    constructor ()
      ensures cards == []
    {
      cards := [];
    }

    /** The constructor's two ways to fill the deck: exactly one of `cards` and `numberOfDecks` is given. */
    static method Create(cards: Option<seq<Card>>, numberOfDecks: Option<int>) returns (r: Result<Deck>)
      ensures cards.None? && numberOfDecks.Some? ==>
        if 0 <= numberOfDecks.value <= MAX_DECK_PACKS
        then r.Ok? && fresh(r.value) && r.value.cards == Shoe(numberOfDecks.value)
        else r == Err(InvalidDeckCount)
      ensures cards.Some? && numberOfDecks.None? ==>
        if cards.value == []
        then r == Err(EmptyCardList)
        else r.Ok? && fresh(r.value) && r.value.cards == cards.value
      ensures cards.None? == numberOfDecks.None? ==> r == Err(MissingArguments)
    {
      if cards.None? && numberOfDecks.Some? {
        var d := new Deck();
        var o := d.GenerateDeck(numberOfDecks.value);
        r := if o.Pass? then Ok(d) else Err(o.error);
      } else if cards.Some? && numberOfDecks.None? {
        var d := new Deck();
        var o := d.PassCards(cards.value);
        r := if o.Pass? then Ok(d) else Err(o.error);
      } else {
        r := Err(MissingArguments);
      }
    }

    /** Appends `numberOfDecks` packs, built suit by suit and rank by rank. */
    method GenerateDeck(numberOfDecks: int) returns (o: Outcome)
      modifies this
      ensures numberOfDecks < 0 || numberOfDecks > MAX_DECK_PACKS ==>
        o == Fail(InvalidDeckCount) && cards == old(cards)
      ensures 0 <= numberOfDecks <= MAX_DECK_PACKS ==>
        o == Pass && cards == old(cards) + Shoe(numberOfDecks)
    {
      if numberOfDecks < 0 || numberOfDecks > MAX_DECK_PACKS {
        return Fail(InvalidDeckCount);
      }
      for p := 0 to numberOfDecks
        invariant cards == old(cards) + Shoe(p)
      {
        ghost var before := cards;
        for si := 0 to |SUITS|
          invariant cards == before + Pack()[..13 * si]
        {
          for ri := 0 to |RANKS|
            invariant cards == before + Pack()[..13 * si + ri]
          {
            PackPrefixStep(si, ri);
            cards := cards + [Card(RANKS[ri], SUITS[si])];
          }
        }
        assert Pack()[..52] == Pack();
      }
      o := Pass;
    }

    /** Takes over an explicit card list, which must not be empty. */
    method PassCards(given: seq<Card>) returns (o: Outcome)
      modifies this
      ensures given == [] ==> o == Fail(EmptyCardList) && cards == old(cards)
      ensures given != [] ==> o == Pass && cards == given
    {
      if |given| == 0 {
        return Fail(EmptyCardList);
      }
      cards := given;
      o := Pass;
    }

    /** Removes and returns the last card; fails, changing nothing, on an empty deck. */
    method Pick() returns (r: Result<Card>)
      modifies this
      ensures old(cards) == [] ==> r == Err(EmptyDeck) && cards == old(cards)
      ensures old(cards) != [] ==> r.Ok? && old(cards) == cards + [r.value]
    {
      if |cards| == 0 {
        return Err(EmptyDeck);
      }
      r := Ok(cards[|cards| - 1]);
      cards := cards[..|cards| - 1];
    }

    /**
     * Reorders the deck in place, Fisher-Yates style: walking down from the last position, the card at
     * position i is swapped with the one at a position drawn below i + 1. The random numbers come from
     * `draws` (the number drawn at position i is draws(i)); whatever they are, the result is a permutation.
     */
    method Shuffle(draws: nat -> nat)
      modifies this
      ensures |cards| == |old(cards)|
      ensures multiset(cards) == multiset(old(cards))
    {
      var i := |cards|;
      while i > 1
        invariant 0 <= i <= |cards| == |old(cards)|
        invariant multiset(cards) == multiset(old(cards))
      {
        i := i - 1;
        var j := draws(i) % (i + 1);
        SwapKeepsMultiset(cards, i, j);
        cards := cards[i := cards[j]][j := cards[i]];
      }
    }
  }

  lemma SwapKeepsMultiset<T>(s: seq<T>, i: nat, j: nat)
    requires i < |s| && j < |s|
    ensures multiset(s[i := s[j]][j := s[i]]) == multiset(s)
  {
  }
}
