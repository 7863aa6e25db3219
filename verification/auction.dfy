/** One auction round of the local game (`Auction.collect_bids`): a drawn card,
    the human's typed bid and the AI's random draw decide who, if anyone, pays
    and takes the card. */
module Auctions {
  import opened Wrappers
  import opened Cards
  import opened Players

  const AI_DRAW_LOW: int := 100
  const AI_DRAW_HIGH: int := 500

  /** One round's external inputs: the card `random.choice` drew, what the
      human typed (`None` when it is not a number) and the AI's
      `random.randint(100, 500)` draw. */
  datatype AuctionInput = AuctionInput(card: Card, typed: Option<int>, draw: int)

  predicate DrawInRange(draw: int)
  {
    AI_DRAW_LOW <= draw <= AI_DRAW_HIGH
  }

  /** The human's effective bid: the typed amount when it lies in
      [100, points], otherwise 0 (a non-numeric entry included). */
  function PlayerBid(typed: Option<int>, points: int): (b: int)
    ensures b == 0 || (MINIMUM_BID <= b <= points && typed == Some(b))
    ensures typed.Some? && MINIMUM_BID <= typed.value <= points ==> b == typed.value
  {
    match typed
    case None => 0
    case Some(v) => if v < MINIMUM_BID || v > points then 0 else v
  }

  /** The AI's effective bid: its draw capped at its balance when it holds at
      least 100 points, otherwise 0. It never exceeds a non-negative balance. */
  function AiBid(draw: int, aiPoints: int): (b: int)
    requires DrawInRange(draw)
    ensures aiPoints >= MINIMUM_BID ==> MINIMUM_BID <= b <= aiPoints && b <= draw
    ensures aiPoints >= MINIMUM_BID && draw <= aiPoints ==> b == draw
    ensures aiPoints >= MINIMUM_BID && draw > aiPoints ==> b == aiPoints
    ensures aiPoints < MINIMUM_BID ==> b == 0
    ensures aiPoints >= 0 ==> 0 <= b <= aiPoints
  {
    if aiPoints >= MINIMUM_BID then (if draw < aiPoints then draw else aiPoints) else 0
  }

  /** Who takes the card: nobody on equal bids, else the higher bidder. */
  datatype Award = Void | ToPlayer | ToAi

  function Winner(playerBid: int, aiBid: int): Award
  {
    if playerBid == aiBid then Void
    else if playerBid > aiBid then ToPlayer
    else ToAi
  }

  /** The round's effect on (player, ai): the winner pays its own bid and
      appends the card to its hand. */
  function Settle(player: Side, ai: Side, card: Card, playerBid: int, aiBid: int): (Side, Side)
  {
    match Winner(playerBid, aiBid)
    case Void => (player, ai)
    case ToPlayer => (Side(player.points - playerBid, player.hand + [card]), ai)
    case ToAi => (player, Side(ai.points - aiBid, ai.hand + [card]))
  }

  /** Equal bids, `0 == 0` included, change nobody. */
  lemma TieIsVoid(player: Side, ai: Side, card: Card, bid: int)
    ensures Settle(player, ai, card, bid, bid) == (player, ai)
  {
  }

  /** A strictly higher human bid: the human pays exactly that bid and gains the
      card at the end of the hand; the AI is unchanged. A strictly higher AI
      bid: the mirror image. */
  lemma HigherBidderPaysAndTakes(player: Side, ai: Side, card: Card, playerBid: int, aiBid: int)
    ensures var (p, a) := Settle(player, ai, card, playerBid, aiBid);
      && (playerBid > aiBid ==> p == Side(player.points - playerBid, player.hand + [card]) && a == ai)
      && (playerBid < aiBid ==> a == Side(ai.points - aiBid, ai.hand + [card]) && p == player)
  {
  }

  /** A full round with the effective bids: at most one side changes, and a
      non-negative balance stays non-negative and never grows. */
  lemma RoundChangesAtMostOneSide(player: Side, ai: Side, input: AuctionInput)
    requires DrawInRange(input.draw)
    requires player.points >= 0 && ai.points >= 0
    ensures var (p, a) := Settle(player, ai, input.card, PlayerBid(input.typed, player.points), AiBid(input.draw, ai.points));
      && (p == player || a == ai)
      && 0 <= p.points <= player.points && 0 <= a.points <= ai.points
      && multiset(p.hand) + multiset(a.hand) == multiset(player.hand) + multiset(ai.hand) + (if p == player && a == ai then multiset{} else multiset{input.card})
  {
  }

  /** `collect_bids(player, ai)`: coerce both bids, then pay and award the card
      to the strictly higher bidder, or void the round on equal bids. */
  method CollectBids(player: Player, ai: Player, input: AuctionInput)
    requires player != ai
    requires DrawInRange(input.draw)
    modifies player, ai
    ensures (player.State(), ai.State()) == Settle(old(player.State()), old(ai.State()), input.card,
                                                   PlayerBid(input.typed, old(player.points)), AiBid(input.draw, old(ai.points)))
  {
    var bidPlayer := match input.typed case None => 0 case Some(v) => v;
    if bidPlayer < MINIMUM_BID || bidPlayer > player.points {
      bidPlayer := 0;
    }
    var bidAi;
    if ai.points >= MINIMUM_BID {
      bidAi := input.draw;
      bidAi := if bidAi < ai.points then bidAi else ai.points;
    } else {
      bidAi := 0;
    }
    if bidPlayer == bidAi {
    } else if bidPlayer > bidAi {
      player.points := player.points - bidPlayer;
      player.AddCard(input.card);
    } else {
      ai.points := ai.points - bidAi;
      ai.AddCard(input.card);
    }
  }
}
