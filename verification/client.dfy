/** The client (`GameClient`): its own balance and hands, the input prompts,
    the state updates it makes on the server's results, and the local game
    against an AI that it runs by itself. */
module Client {
  import opened Wrappers
  import opened Cards
  import opened Lists
  import opened Players
  import Server

  /** `determine_winner` of the client: the same rule, seen from the first card's side. */
  function PlayerResult(a: Card, b: Card): (r: string)
    ensures r == "TIE" <==> a == b
    ensures r == "WIN" <==> Beats(a, b)
    ensures r == "LOSE" <==> Beats(b, a)
  {
    match Compare(a, b)
    case Tie => "TIE"
    case FirstWins => "WIN"
    case SecondWins => "LOSE"
  }

  /** The client's and the server's copies of the rule agree on every pair:
      WIN is P1_WIN, LOSE is P2_WIN, TIE is TIE. */
  lemma AgreesWithServer(a: Card, b: Card)
    ensures PlayerResult(a, b) == "TIE" <==> Cards.DetermineWinner(a, b) == "TIE"
    ensures PlayerResult(a, b) == "WIN" <==> Cards.DetermineWinner(a, b) == "P1_WIN"
    ensures PlayerResult(a, b) == "LOSE" <==> Cards.DetermineWinner(a, b) == "P2_WIN"
  {
  }

  /** The upper end of the AI's random bid in the local game. */
  const AI_BID_CAP: int := 300

  /** The bid prompt takes a number between 0 and the balance; anything else
      (`None`: not a number) is refused and asked again. */
  predicate AcceptableBid(entry: Option<int>, points: int)
  {
    entry.Some? && 0 <= entry.value <= points
  }

  /** The first entry the bid prompt accepts, if any. */
  function FirstAcceptableBid(attempts: seq<Option<int>>, points: int): (r: Option<int>)
    ensures r.Some? ==> 0 <= r.value <= points && r in attempts
  {
    if attempts == [] then None
    else if AcceptableBid(attempts[0], points) then attempts[0]
    else FirstAcceptableBid(attempts[1..], points)
  }

  /** The bid prompt over a finite list of entries: returns the first
      acceptable entry and how many entries it read, or `None` if no entry was
      acceptable (the prompt would still be waiting). */
  method PromptBid(attempts: seq<Option<int>>, points: int) returns (bid: Option<int>, used: nat)
    ensures bid == FirstAcceptableBid(attempts, points)
    ensures used <= |attempts|
    ensures bid.Some? ==> 0 < used && Some(bid.value) == attempts[used - 1] && 0 <= bid.value <= points
    ensures bid.None? ==> used == |attempts|
    ensures forall j | 0 <= j < |attempts| && j < used - (if bid.Some? then 1 else 0) :: !AcceptableBid(attempts[j], points)
  {
    var i := 0;
    while i < |attempts|
      invariant 0 <= i <= |attempts|
      invariant forall j | 0 <= j < i :: !AcceptableBid(attempts[j], points)
      invariant FirstAcceptableBid(attempts[i..], points) == FirstAcceptableBid(attempts, points)
    {
      if AcceptableBid(attempts[i], points) {
        return attempts[i], i + 1;
      }
      assert attempts[i..][1..] == attempts[i + 1..];
      i := i + 1;
    }
    return None, |attempts|;
  }

  /** The first entry the card prompt accepts (one the hand holds), if any. */
  function FirstHeldCard(attempts: seq<Card>, hand: seq<Card>): (r: Option<Card>)
    ensures r.Some? ==> r.value in hand && r.value in attempts
  {
    if attempts == [] then None
    else if attempts[0] in hand then Some(attempts[0])
    else FirstHeldCard(attempts[1..], hand)
  }

  /** The card prompt over a finite list of entries: returns the first entry
      the hand holds and how many entries it read, or `None` if none is held. */
  method PromptCard(attempts: seq<Card>, hand: seq<Card>) returns (choice: Option<Card>, used: nat)
    ensures choice == FirstHeldCard(attempts, hand)
    ensures used <= |attempts|
    ensures choice.Some? ==> 0 < used && attempts[used - 1] == choice.value && choice.value in hand
    ensures choice.None? ==> used == |attempts|
    ensures forall j | 0 <= j < |attempts| && j < used - (if choice.Some? then 1 else 0) :: attempts[j] !in hand
  {
    var i := 0;
    while i < |attempts|
      invariant 0 <= i <= |attempts|
      invariant forall j | 0 <= j < i :: attempts[j] !in hand
      invariant FirstHeldCard(attempts[i..], hand) == FirstHeldCard(attempts, hand)
    {
      if attempts[i] in hand {
        return Some(attempts[i]), i + 1;
      }
      assert attempts[i..][1..] == attempts[i + 1..];
      i := i + 1;
    }
    return None, |attempts|;
  }

  /** The balance after an `AUCTION_RESULT`: a WIN costs the announced amount,
      a LOSE costs nothing. */
  function PointsAfterResult(points: int, message: Server.AuctionResultMessage): int
  {
    if message.win then points - message.amount else points
  }

  /** The clients keep the server's counters: when each balance equals its
      counter and each bid passed the prompt, applying the result message each
      client receives gives it the server's new counter, and neither becomes
      negative. */
  lemma ClientsTrackServerCounters(p1: int, p2: int, b1: int, b2: int)
    requires 0 <= b1 <= p1 && 0 <= b2 <= p2
    ensures var r := Server.AuctionRound(p1, p2, b1, b2);
      && PointsAfterResult(p1, Server.ResultMessageFor(r, 0)) == r.p1
      && PointsAfterResult(p2, Server.ResultMessageFor(r, 1)) == r.p2
      && r.p1 >= 0 && r.p2 >= 0
  {
  }

  /** One local auction round's external inputs: the card drawn, the typed
      entries, and a draw from which `randint(0, min(points, 300))` is taken. */
  datatype AiAuctionInput = AiAuctionInput(card: Card, attempts: seq<Option<int>>, draw: nat)

  /** One local battle turn's external inputs: the typed entries, and a draw
      from which `random.choice` picks the AI's card. */
  datatype AiBattleInput = AiBattleInput(attempts: seq<Card>, draw: nat)

  datatype AiGameEnd = PlayerWon | AiWon | AiGamePending

  /** What the game against the AI acts on: the human's balance and hand, and
      the AI's hand. */
  datatype AiTable = AiTable(points: int, cards: seq<Card>, opponentCards: seq<Card>)

  function Min(a: int, b: int): int
  {
    if a < b then a else b
  }

  /** The AI's bid, `random.randint(0, min(points, 300))`, taken from a draw. */
  function AiDrawBid(draw: nat, points: int): (b: int)
    requires points >= 0
    ensures 0 <= b <= Min(points, AI_BID_CAP)
  {
    draw % (Min(points, AI_BID_CAP) + 1)
  }

  /** The AI's card, `random.choice` of its hand, taken from a draw. */
  function AiDrawCard(draw: nat, hand: seq<Card>): (c: Card)
    requires hand != []
    ensures c in hand
  {
    hand[draw % |hand|]
  }

  /** `handle_ai_auction` once the bids are known: a strictly higher human bid
      pays and takes the card, otherwise the AI takes it for free. */
  function AiAuctionStep(t: AiTable, card: Card, bid: int, aiBid: int): AiTable
  {
    if bid > aiBid then AiTable(t.points - bid, t.cards + [card], t.opponentCards)
    else t.(opponentCards := t.opponentCards + [card])
  }

  /** `handle_ai_battle` once both cards are chosen: the loser gives up the
      first instance of the card it played. */
  function AiBattleStep(t: AiTable, choice: Card, aiCard: Card): AiTable
  {
    var result := PlayerResult(choice, aiCard);
    if result == "TIE" then t
    else if result == "WIN" then t.(opponentCards := RemoveFirst(t.opponentCards, aiCard))
    else t.(cards := RemoveFirst(t.cards, choice))
  }

  /** The auction loop of `start_ai_mode` from round `i`: rounds run while
      the human holds at least 100 points. The table reached, and whether the
      loop ended (false: the input ran out first). */
  function AiAuctionRun(t: AiTable, rounds: seq<AiAuctionInput>, i: nat): (AiTable, bool)
    requires i <= |rounds|
    decreases |rounds| - i
  {
    if t.points < MINIMUM_BID then (t, true)
    else if i == |rounds| then (t, false)
    else
      match FirstAcceptableBid(rounds[i].attempts, t.points)
      case None => (t, false)
      case Some(bid) => AiAuctionRun(AiAuctionStep(t, rounds[i].card, bid, AiDrawBid(rounds[i].draw, t.points)), rounds, i + 1)
  }

  /** The battle loop of `start_ai_mode` from turn `i`: turns run while both
      hands are non-empty. The table reached, and whether the loop ended. */
  function AiBattleRun(t: AiTable, turns: seq<AiBattleInput>, i: nat): (AiTable, bool)
    requires i <= |turns|
    decreases |turns| - i
  {
    if t.cards == [] || t.opponentCards == [] then (t, true)
    else if i == |turns| then (t, false)
    else
      match FirstHeldCard(turns[i].attempts, t.cards)
      case None => (t, false)
      case Some(choice) => AiBattleRun(AiBattleStep(t, choice, AiDrawCard(turns[i].draw, t.opponentCards)), turns, i + 1)
  }

  /** `start_ai_mode`: the AI's hand becomes two cards of each kind, whatever it
      held; then the auction loop, the battle loop and the verdict. */
  function AiGame(t: AiTable, auctions: seq<AiAuctionInput>, battles: seq<AiBattleInput>): (AiGameEnd, AiTable)
  {
    var (a, auctionDone) := AiAuctionRun(t.(opponentCards := TWO_OF_EACH), auctions, 0);
    if !auctionDone then (AiGamePending, a)
    else
      var (b, battleDone) := AiBattleRun(a, battles, 0);
      if !battleDone then (AiGamePending, b)
      else (if b.opponentCards == [] then PlayerWon else AiWon, b)
  }

  /** The auction loop leaves a balance between 0 and the old one, below 100
      once it ends, and each hand keeps its old cards as a prefix. */
  lemma {:induction false} AiAuctionRunKeeps(t: AiTable, rounds: seq<AiAuctionInput>, i: nat)
    requires i <= |rounds| && t.points >= 0
    decreases |rounds| - i
    ensures var (u, done) := AiAuctionRun(t, rounds, i);
      && 0 <= u.points <= t.points
      && (done ==> u.points < MINIMUM_BID)
      && t.cards <= u.cards && t.opponentCards <= u.opponentCards
  {
    if t.points >= MINIMUM_BID && i < |rounds| {
      match FirstAcceptableBid(rounds[i].attempts, t.points)
      case None =>
      case Some(bid) =>
        AiAuctionRunKeeps(AiAuctionStep(t, rounds[i].card, bid, AiDrawBid(rounds[i].draw, t.points)), rounds, i + 1);
    }
  }

  /** One turn on two non-empty hands, with cards each side holds, leaves a
      hand non-empty, adds no card and leaves the balance alone. */
  lemma AiBattleStepKeepsAHolder(t: AiTable, choice: Card, aiCard: Card)
    requires t.cards != [] && t.opponentCards != []
    requires choice in t.cards && aiCard in t.opponentCards
    ensures var n := AiBattleStep(t, choice, aiCard);
      && n.points == t.points
      && (n.cards != [] || n.opponentCards != [])
      && multiset(n.cards) <= multiset(t.cards) && multiset(n.opponentCards) <= multiset(t.opponentCards)
  {
  }

  /** The battle loop never empties both hands: once it ends exactly one is
      empty. It never adds a card or touches the balance. */
  lemma {:induction false} AiBattleRunEnds(t: AiTable, turns: seq<AiBattleInput>, i: nat)
    requires i <= |turns| && (t.cards != [] || t.opponentCards != [])
    decreases |turns| - i
    ensures var (u, done) := AiBattleRun(t, turns, i);
      && u.points == t.points
      && (done ==> (u.cards == []) != (u.opponentCards == []))
      && multiset(u.cards) <= multiset(t.cards) && multiset(u.opponentCards) <= multiset(t.opponentCards)
  {
    if t.cards != [] && t.opponentCards != [] && i < |turns| {
      match FirstHeldCard(turns[i].attempts, t.cards)
      case None =>
      case Some(choice) =>
        var aiCard := AiDrawCard(turns[i].draw, t.opponentCards);
        var n := AiBattleStep(t, choice, aiCard);
        AiBattleStepKeepsAHolder(t, choice, aiCard);
        assert AiBattleRun(t, turns, i) == AiBattleRun(n, turns, i + 1);
        AiBattleRunEnds(n, turns, i + 1);
    }
  }

  /** The verdict of a game against the AI: the balance never grows or goes
      negative; a finished game has a balance below 100 and exactly one empty
      hand, and the human wins exactly when the AI's hand is the empty one. */
  lemma AiGameVerdict(t: AiTable, auctions: seq<AiAuctionInput>, battles: seq<AiBattleInput>)
    requires t.points >= 0
    ensures var (e, u) := AiGame(t, auctions, battles);
      && 0 <= u.points <= t.points
      && (e != AiGamePending ==> u.points < MINIMUM_BID && (u.cards == []) != (u.opponentCards == []))
      && (e == PlayerWon <==> e != AiGamePending && u.opponentCards == [])
  {
    var start := t.(opponentCards := TWO_OF_EACH);
    AiAuctionRunKeeps(start, auctions, 0);
    var (a, _) := AiAuctionRun(start, auctions, 0);
    assert TWO_OF_EACH <= a.opponentCards;
    AiBattleRunEnds(a, battles, 0);
  }

  /** The AI's starting hand is two cards of each kind: a human who can no
      longer bid and holds no card loses to an AI holding exactly those six. */
  lemma AiStartsWithTwoOfEach(t: AiTable, auctions: seq<AiAuctionInput>, battles: seq<AiBattleInput>)
    requires 0 <= t.points < MINIMUM_BID && t.cards == []
    ensures AiGame(t, auctions, battles) == (AiWon, AiTable(t.points, [], TWO_OF_EACH))
  {
  }

  class GameClient {
    var points: int
    var cards: seq<Card>
    var opponentCards: seq<Card>

    function State(): AiTable
      reads this
    {
      AiTable(points, cards, opponentCards)
    }

    /** A new client holds 1000 points and no cards. */
    constructor ()
      ensures points == STARTING_POINTS && cards == [] && opponentCards == []
    {
      points := STARTING_POINTS;
      cards := [];
      opponentCards := [];
    }

    /** `handle_auction` after the result arrives: a WIN lowers the balance by
        the announced amount and appends the card; a LOSE changes nothing. */
    method HandleAuction(card: Card, message: Server.AuctionResultMessage)
      modifies this
      ensures points == PointsAfterResult(old(points), message)
      ensures cards == (if message.win then old(cards) + [card] else old(cards))
      ensures opponentCards == old(opponentCards)
    {
      if message.win {
        points := points - message.amount;
        cards := cards + [card];
      }
    }

    /** `handle_battle` after the result arrives: the opponent's hand becomes
        the list the server sent; on "TIE" nothing else changes, on "WIN" the
        opponent's card is removed from that list if present, and on any other
        result the client's own card is removed if present. */
    method HandleBattle(result: string, myCard: Card, opponentCard: Card, opponentHand: seq<Card>)
      modifies this
      ensures points == old(points)
      ensures result == "TIE" ==> cards == old(cards) && opponentCards == opponentHand
      ensures result == "WIN" ==> cards == old(cards) && opponentCards == RemoveFirst(opponentHand, opponentCard)
      ensures result != "TIE" && result != "WIN" ==> opponentCards == opponentHand && cards == RemoveFirst(old(cards), myCard)
      ensures myCard !in old(cards) ==> cards == old(cards)
    {
      opponentCards := opponentHand;
      if result == "TIE" {
      } else if result == "WIN" {
        if opponentCard in opponentCards {
          opponentCards := RemoveFirst(opponentCards, opponentCard);
        }
      } else {
        if myCard in cards {
          cards := RemoveFirst(cards, myCard);
        }
      }
    }

    /** `handle_ai_auction` once the bids are known: only a strictly higher
        human bid wins, costing that bid and appending the card to the human's
        hand; otherwise, ties included, the AI gets the card for free. */
    method HandleAiAuction(card: Card, bid: int, aiBid: int)
      requires 0 <= bid <= points
      requires 0 <= aiBid <= Min(points, AI_BID_CAP)
      modifies this
      ensures bid > aiBid ==> points == old(points) - bid && cards == old(cards) + [card] && opponentCards == old(opponentCards)
      ensures bid <= aiBid ==> points == old(points) && cards == old(cards) && opponentCards == old(opponentCards) + [card]
      ensures 0 <= points <= old(points)
      ensures State() == AiAuctionStep(old(State()), card, bid, aiBid)
    {
      if bid > aiBid {
        points := points - bid;
        cards := cards + [card];
      } else {
        opponentCards := opponentCards + [card];
      }
    }

    /** `handle_ai_battle` once both cards are chosen: WIN removes one instance
        of the AI's card from its hand, LOSE one instance of the human's card
        from the human's hand, and TIE changes nothing. */
    method HandleAiBattle(choice: Card, aiCard: Card)
      requires choice in cards && aiCard in opponentCards
      modifies this
      ensures points == old(points)
      ensures choice == aiCard ==> cards == old(cards) && opponentCards == old(opponentCards)
      ensures Beats(choice, aiCard) ==>
                && cards == old(cards)
                && opponentCards == RemoveFirst(old(opponentCards), aiCard)
                && |opponentCards| == |old(opponentCards)| - 1
                && multiset(opponentCards) == multiset(old(opponentCards)) - multiset{aiCard}
      ensures Beats(aiCard, choice) ==>
                && opponentCards == old(opponentCards)
                && cards == RemoveFirst(old(cards), choice)
                && |cards| == |old(cards)| - 1
                && multiset(cards) == multiset(old(cards)) - multiset{choice}
      ensures State() == AiBattleStep(old(State()), choice, aiCard)
    {
      var result := PlayerResult(choice, aiCard);
      if result == "TIE" {
      } else if result == "WIN" {
        opponentCards := RemoveFirst(opponentCards, aiCard);
      } else {
        cards := RemoveFirst(cards, choice);
      }
    }

    /** `start_ai_mode`: the AI gets two cards of each kind; auction rounds run
        while the human holds at least 100 points, then battle turns while both
        hands are non-empty; the outcome and the state reached are `AiGame`. */
    method StartAiMode(auctions: seq<AiAuctionInput>, battles: seq<AiBattleInput>) returns (end: AiGameEnd)
      requires points >= 0
      modifies this
      ensures (end, State()) == AiGame(old(State()), auctions, battles)
      ensures 0 <= points <= old(points)
      ensures end != AiGamePending ==> points < MINIMUM_BID
      ensures end != AiGamePending ==> (cards == []) != (opponentCards == [])
      ensures end == PlayerWon <==> end != AiGamePending && opponentCards == []
    {
      AiGameVerdict(State(), auctions, battles);
      opponentCards := TWO_OF_EACH;
      ghost var start := State();
      var i := 0;
      while points >= MINIMUM_BID
        invariant 0 <= i <= |auctions|
        invariant AiAuctionRun(State(), auctions, i) == AiAuctionRun(start, auctions, 0)
        decreases |auctions| - i
      {
        if i == |auctions| {
          return AiGamePending;
        }
        var round := auctions[i];
        var bid, _ := PromptBid(round.attempts, points);
        if bid.None? {
          return AiGamePending;
        }
        var aiBid := AiDrawBid(round.draw, points);
        HandleAiAuction(round.card, bid.value, aiBid);
        i := i + 1;
      }
      ghost var afterAuction := State();
      var j := 0;
      while cards != [] && opponentCards != []
        invariant 0 <= j <= |battles|
        invariant AiBattleRun(State(), battles, j) == AiBattleRun(afterAuction, battles, 0)
        decreases |battles| - j
      {
        if j == |battles| {
          return AiGamePending;
        }
        var turn := battles[j];
        var choice, _ := PromptCard(turn.attempts, cards);
        if choice.None? {
          return AiGamePending;
        }
        var aiCard := AiDrawCard(turn.draw, opponentCards);
        HandleAiBattle(choice.value, aiCard);
        j := j + 1;
      }
      end := if opponentCards == [] then PlayerWon else AiWon;
    }
  }
}
