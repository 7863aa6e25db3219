/** A participant: a name, a point balance and an ordered hand of cards. */
module Players {
  import opened Cards
  import opened Lists

  const STARTING_POINTS: int := 1000

  /** The least bid the auction rules treat as a real bid. */
  const MINIMUM_BID: int := 100

  /** A snapshot of what a participant owns: the value the round rules map. */
  datatype Side = Side(points: int, hand: seq<Card>)

  class Player {
    const name: string
    var points: int
    var cards: seq<Card>

    function State(): Side
      reads this
    {
      Side(points, cards)
    }

    /** A new participant holds 1000 points and one card of each kind, in the
        order Scissors, Rock, Paper. */
    constructor (name: string)
      ensures this.name == name
      ensures points == STARTING_POINTS && cards == [Scissors, Rock, Paper]
    {
      this.name := name;
      points := STARTING_POINTS;
      cards := [Scissors, Rock, Paper];
    }

    /** `bid_points`: pay `amount` if the balance covers it; otherwise refuse
        and change nothing. The hand is never touched. */
    method BidPoints(amount: int) returns (ok: bool)
      modifies this
      ensures ok <==> amount <= old(points)
      ensures ok ==> points == old(points) - amount
      ensures !ok ==> points == old(points)
      ensures cards == old(cards)
      ensures old(points) >= 0 && amount >= 0 ==> 0 <= points <= old(points)
    {
      if amount <= points {
        points := points - amount;
        return true;
      }
      return false;
    }

    /** `add_card`: the new card goes to the end of the hand; the cards already
        held keep their places. */
    method AddCard(card: Card)
      modifies this
      ensures cards == old(cards) + [card]
      ensures |cards| == |old(cards)| + 1 && cards[..|old(cards)|] == old(cards)
      ensures points == old(points)
    {
      cards := cards + [card];
    }

    /** `use_card`: scan the hand and remove the first card of the named kind.
        Reports whether one was found; without one the hand is unchanged. */
    method UseCard(card: Card) returns (ok: bool)
      modifies this
      ensures ok <==> card in old(cards)
      ensures cards == RemoveFirst(old(cards), card)
      ensures ok ==> |cards| == |old(cards)| - 1
      ensures points == old(points)
    {
      var i := 0;
      while i < |cards|
        invariant 0 <= i <= |cards|
        invariant cards == old(cards)
        invariant card !in cards[..i]
      {
        if cards[i] == card {
          RemoveFirstDeletesAt(cards, card, i);
          cards := cards[..i] + cards[i + 1..];
          return true;
        }
        i := i + 1;
      }
      assert cards[..i] == cards;
      return false;
    }
  }
}
