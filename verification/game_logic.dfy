/** The local two-participant game (`GameLogic`): the auction phase driven by
    `collect_bids` and an activity flag, the battle phase and its turns, and
    the end-of-game verdict. */
module GameLogic {
  import opened Wrappers
  import opened Cards
  import opened Lists
  import opened Players
  import opened Auctions

  /** The effect of one `play_turn` on the two hands, for given result strings
      in its three branches. Player 1 plays the first card of the named kind in
      its hand, player 2 its first card; if player 1 holds no such card or
      player 2 holds none at all, the turn is void. */
  function TurnWithLabels(h1: seq<Card>, h2: seq<Card>, choice: Card, tie: string, p1Wins: string, p2Wins: string): (seq<Card>, seq<Card>)
  {
    if choice !in h1 || h2 == [] then (h1, h2)
    else
      var result := DetermineWinner(choice, h2[0]);
      if result == tie then (h1, h2)
      else if result == p1Wins then (h1, RemoveFirst(h2, h2[0]))
      else if result == p2Wins then (RemoveFirst(h1, choice), h2)
      else (h1, h2)
  }

  /** `play_turn` as written: its branches test "tie", "player1" and
      "player2", none of which `determine_winner` returns, so no hand ever
      changes. */
  function TurnAsWritten(h1: seq<Card>, h2: seq<Card>, choice: Card): (r: (seq<Card>, seq<Card>))
    ensures r == (h1, h2)
  {
    TurnWithLabels(h1, h2, choice, "tie", "player1", "player2")
  }

  /** `play_turn` with the branches testing the strings `determine_winner`
      returns: the loser gives up exactly one instance of the card it played,
      the winner and a tie change nothing. */
  function Turn(h1: seq<Card>, h2: seq<Card>, choice: Card): (r: (seq<Card>, seq<Card>))
    ensures choice !in h1 || h2 == [] || choice == h2[0] ==> r == (h1, h2)
    ensures choice in h1 && h2 != [] && Beats(choice, h2[0]) ==> r == (h1, h2[1..])
    ensures choice in h1 && h2 != [] && Beats(h2[0], choice) ==>
              && r.1 == h2
              && |r.0| == |h1| - 1
              && multiset(r.0) == multiset(h1) - multiset{choice}
              && r.0 == h1[..IndexOf(h1, choice)] + h1[IndexOf(h1, choice) + 1..]
  {
    if choice in h1 then
      RemoveFirstDeletesAt(h1, choice, IndexOf(h1, choice));
      TurnWithLabels(h1, h2, choice, "TIE", "P1_WIN", "P2_WIN")
    else
      TurnWithLabels(h1, h2, choice, "TIE", "P1_WIN", "P2_WIN")
  }

  /** The discrepancy on a concrete turn: player 1's Rock beats player 2's
      Scissors, yet as written player 2 keeps its Scissors. */
  lemma TurnAsWrittenKeepsLosersCard()
    ensures TurnAsWritten([Rock], [Scissors], Rock) == ([Rock], [Scissors])
    ensures Turn([Rock], [Scissors], Rock) == ([Rock], [])
  {
  }

  /** A turn never gives a card: each hand's cards are a sub-multiset of what
      it held, and the two hands together lose at most one card. */
  lemma TurnOnlyRemoves(h1: seq<Card>, h2: seq<Card>, choice: Card)
    ensures var (n1, n2) := Turn(h1, h2, choice);
      && multiset(n1) <= multiset(h1) && multiset(n2) <= multiset(h2)
      && |h1| + |h2| <= |n1| + |n2| + 1
  {
  }

  /** What the local game's loops act on: the two participants and the
      auction flag. */
  datatype Table = Table(p1: Side, p2: Side, active: bool)

  /** `can_continue_auction`: the flag is set and at least one participant can
      still make a real bid (the human a bid of 100, the AI any bid). */
  function CanContinueAuction(t: Table): (r: bool)
    ensures r <==> t.active && (PlayerBid(Some(MINIMUM_BID), t.p1.points) != 0 || AiBid(AI_DRAW_LOW, t.p2.points) != 0)
  {
    t.active && (t.p1.points >= MINIMUM_BID || t.p2.points >= MINIMUM_BID)
  }

  predicate DrawsInRange(rounds: seq<AuctionInput>)
  {
    forall i | 0 <= i < |rounds| :: DrawInRange(rounds[i].draw)
  }

  /** One pass of the `auction_phase` loop: a `collect_bids` round between
      player 1 (the human) and player 2 (the AI), then the flag is cleared
      when both balances are below 100. */
  function AuctionStep(t: Table, input: AuctionInput): Table
    requires DrawInRange(input.draw)
  {
    var (n1, n2) := Settle(t.p1, t.p2, input.card, PlayerBid(input.typed, t.p1.points), AiBid(input.draw, t.p2.points));
    Table(n1, n2, t.active && !(n1.points < MINIMUM_BID && n2.points < MINIMUM_BID))
  }

  /** The `auction_phase` loop over a finite supply of rounds, from round
      `i` on: the table it reaches and the index of the first round it did
      not play. */
  function AuctionRun(t: Table, rounds: seq<AuctionInput>, i: nat): (Table, nat)
    requires DrawsInRange(rounds) && i <= |rounds|
    decreases |rounds| - i
  {
    if i == |rounds| || !CanContinueAuction(t) then (t, i)
    else AuctionRun(AuctionStep(t, rounds[i]), rounds, i + 1)
  }

  /** The auction loop stops early only when `can_continue_auction` fails; the
      flag is cleared only once both balances are below 100; balances never
      grow; each hand keeps its old cards as a prefix and the two hands gain at
      most one card a round. */
  lemma {:induction false} AuctionRunFacts(t: Table, rounds: seq<AuctionInput>, i: nat)
    requires DrawsInRange(rounds) && i <= |rounds|
    decreases |rounds| - i
    ensures var (u, n) := AuctionRun(t, rounds, i);
      && i <= n <= |rounds|
      && (n < |rounds| ==> !CanContinueAuction(u))
      && (t.active && !u.active ==> u.p1.points < MINIMUM_BID && u.p2.points < MINIMUM_BID)
      && u.p1.points <= t.p1.points && u.p2.points <= t.p2.points
      && t.p1.hand <= u.p1.hand && t.p2.hand <= u.p2.hand
      && |u.p1.hand| + |u.p2.hand| <= |t.p1.hand| + |t.p2.hand| + (n - i)
  {
    if i < |rounds| && CanContinueAuction(t) {
      AuctionRunFacts(AuctionStep(t, rounds[i]), rounds, i + 1);
    }
  }

  /** One battle-loop iteration's input: whether the user chose to go on
      (typing "아니요" stops), and the kind player 1 names. */
  datatype BattleInput = BattleInput(proceed: bool, choice: Card)

  /** The `battle_phase` loop over a finite supply of turns, from turn `i`
      on, each played with the corrected `Turn`: the hands it reaches, the
      index of the first turn it did not play and whether the user stopped
      it there. */
  function BattleRun(h1: seq<Card>, h2: seq<Card>, turns: seq<BattleInput>, i: nat): (seq<Card>, seq<Card>, nat, bool)
    requires i <= |turns|
    decreases |turns| - i
  {
    if i == |turns| || h1 == [] || h2 == [] then (h1, h2, i, false)
    else if !turns[i].proceed then (h1, h2, i, true)
    else
      var (n1, n2) := Turn(h1, h2, turns[i].choice);
      BattleRun(n1, n2, turns, i + 1)
  }

  /** The battle loop ends with a hand empty unless the user stops it or the
      input runs out. */
  lemma {:induction false} BattleRunEnds(h1: seq<Card>, h2: seq<Card>, turns: seq<BattleInput>, i: nat)
    requires i <= |turns|
    decreases |turns| - i
    ensures var (e1, e2, n, stopped) := BattleRun(h1, h2, turns, i);
      && i <= n <= |turns|
      && (stopped ==> n < |turns| && !turns[n].proceed)
      && (!stopped && n < |turns| ==> e1 == [] || e2 == [])
  {
    if i < |turns| && h1 != [] && h2 != [] && turns[i].proceed {
      var (n1, n2) := Turn(h1, h2, turns[i].choice);
      BattleRunEnds(n1, n2, turns, i + 1);
    }
  }

  /** A turn between two holders leaves a holder: only the loser loses a card. */
  lemma TurnKeepsAHolder(h1: seq<Card>, h2: seq<Card>, choice: Card)
    requires h1 != [] && h2 != []
    ensures var (n1, n2) := Turn(h1, h2, choice); n1 != [] || n2 != []
  {
  }

  /** A battle begun with a card in hand keeps one: both hands never run out
      together, so the loop's end always has a participant to name. */
  lemma {:induction false} BattleRunKeepsAHolder(h1: seq<Card>, h2: seq<Card>, turns: seq<BattleInput>, i: nat)
    requires i <= |turns| && (h1 != [] || h2 != [])
    decreases |turns| - i
    ensures var (e1, e2, _, _) := BattleRun(h1, h2, turns, i); e1 != [] || e2 != []
  {
    if i < |turns| && h1 != [] && h2 != [] && turns[i].proceed {
      var (n1, n2) := Turn(h1, h2, turns[i].choice);
      TurnKeepsAHolder(h1, h2, turns[i].choice);
      BattleRunKeepsAHolder(n1, n2, turns, i + 1);
    }
  }

  /** No card is gained in the battle loop, and at most one is lost per turn. */
  lemma {:induction false} BattleRunOnlyRemoves(h1: seq<Card>, h2: seq<Card>, turns: seq<BattleInput>, i: nat)
    requires i <= |turns|
    decreases |turns| - i
    ensures var (e1, e2, n, _) := BattleRun(h1, h2, turns, i);
      && multiset(e1) <= multiset(h1) && multiset(e2) <= multiset(h2)
      && |h1| + |h2| <= |e1| + |e2| + (n - i)
  {
    if i < |turns| && h1 != [] && h2 != [] && turns[i].proceed {
      var (n1, n2) := Turn(h1, h2, turns[i].choice);
      TurnOnlyRemoves(h1, h2, turns[i].choice);
      BattleRunOnlyRemoves(n1, n2, turns, i + 1);
    }
  }

  class Game {
    const player1: Player
    const player2: Player
    var isAuctionActive: bool

    ghost predicate Valid()
    {
      player1 != player2
    }

    constructor (player1: Player, player2: Player)
      requires player1 != player2
      ensures Valid() && this.player1 == player1 && this.player2 == player2
      ensures isAuctionActive
    {
      this.player1 := player1;
      this.player2 := player2;
      isAuctionActive := true;
    }

    function Snapshot(): Table
      reads this, player1, player2
    {
      Table(player1.State(), player2.State(), isAuctionActive)
    }

    /** One pass of the `auction_phase` loop: a `collect_bids` round, then the
        flag is cleared exactly when both balances are below 100. */
    method AuctionRound(input: AuctionInput)
      requires Valid() && DrawInRange(input.draw)
      modifies this, player1, player2
      ensures (player1.State(), player2.State()) == Settle(old(player1.State()), old(player2.State()), input.card,
                                                           PlayerBid(input.typed, old(player1.points)), AiBid(input.draw, old(player2.points)))
      ensures isAuctionActive <==> old(isAuctionActive) && !(player1.points < MINIMUM_BID && player2.points < MINIMUM_BID)
      ensures Snapshot() == AuctionStep(old(Snapshot()), input)
    {
      CollectBids(player1, player2, input);
      if player1.points < MINIMUM_BID && player2.points < MINIMUM_BID {
        isAuctionActive := false;
      }
    }

    /** `auction_phase` over a finite supply of round inputs: rounds run while
        `can_continue_auction` holds, and the state reached is `AuctionRun` of
        the old one. */
    method AuctionPhase(rounds: seq<AuctionInput>) returns (played: nat)
      requires Valid() && DrawsInRange(rounds)
      modifies this, player1, player2
      ensures (Snapshot(), played) == AuctionRun(old(Snapshot()), rounds, 0)
      ensures played <= |rounds|
      ensures played < |rounds| ==> !CanContinueAuction(Snapshot())
      ensures old(isAuctionActive) && !isAuctionActive ==> player1.points < MINIMUM_BID && player2.points < MINIMUM_BID
      ensures player1.points <= old(player1.points) && player2.points <= old(player2.points)
      ensures old(player1.cards) <= player1.cards && old(player2.cards) <= player2.cards
    {
      AuctionRunFacts(Snapshot(), rounds, 0);
      played := 0;
      while played < |rounds| && CanContinueAuction(Snapshot())
        invariant played <= |rounds|
        invariant AuctionRun(Snapshot(), rounds, played) == AuctionRun(old(Snapshot()), rounds, 0)
      {
        AuctionRound(rounds[played]);
        played := played + 1;
      }
    }

    /** `play_turn` with the loser's card removed (see `Turn`); balances are
        not touched. */
    method PlayTurn(choice: Card)
      requires Valid()
      modifies player1, player2
      ensures (player1.cards, player2.cards) == Turn(old(player1.cards), old(player2.cards), choice)
      ensures player1.points == old(player1.points) && player2.points == old(player2.points)
    {
      if choice !in player1.cards || player2.cards == [] {
        return;
      }
      var card2 := player2.cards[0];
      var result := DetermineWinner(choice, card2);
      if result == "TIE" {
      } else if result == "P1_WIN" {
        player2.cards := RemoveFirst(player2.cards, card2);
      } else if result == "P2_WIN" {
        player1.cards := RemoveFirst(player1.cards, choice);
      }
    }

    /** `battle_phase` over a finite supply of turn inputs: turns run while both
        hands are non-empty, until the user stops; the hands reached are
        `BattleRun` of the old ones. Unless stopped or out of input, it ends
        with the game over. */
    method BattlePhase(turns: seq<BattleInput>) returns (played: nat, stopped: bool)
      requires Valid()
      modifies player1, player2
      ensures (player1.cards, player2.cards, played, stopped) == BattleRun(old(player1.cards), old(player2.cards), turns, 0)
      ensures played <= |turns|
      ensures stopped ==> played < |turns| && !turns[played].proceed
      ensures !stopped && played < |turns| ==> IsGameOver()
      ensures !stopped && played < |turns| && (old(player1.cards) != [] || old(player2.cards) != []) ==>
                (player1.cards == []) != (player2.cards == [])
      ensures multiset(player1.cards) <= multiset(old(player1.cards)) && multiset(player2.cards) <= multiset(old(player2.cards))
      ensures player1.points == old(player1.points) && player2.points == old(player2.points)
    {
      BattleRunEnds(player1.cards, player2.cards, turns, 0);
      BattleRunOnlyRemoves(player1.cards, player2.cards, turns, 0);
      if player1.cards != [] || player2.cards != [] {
        BattleRunKeepsAHolder(player1.cards, player2.cards, turns, 0);
      }
      played, stopped := 0, false;
      while played < |turns| && player1.cards != [] && player2.cards != []
        invariant played <= |turns|
        invariant BattleRun(player1.cards, player2.cards, turns, played) == BattleRun(old(player1.cards), old(player2.cards), turns, 0)
        invariant player1.points == old(player1.points) && player2.points == old(player2.points)
      {
        if !turns[played].proceed {
          stopped := true;
          return;
        }
        PlayTurn(turns[played].choice);
        played := played + 1;
      }
    }

    /** `is_game_over`: the game is over exactly when the battle loop would
        end at once whatever the input, and then no turn changes a hand. */
    function IsGameOver(): (over: bool)
      reads player1, player2
      ensures over <==> forall t: BattleInput :: BattleRun(player1.cards, player2.cards, [t], 0) == (player1.cards, player2.cards, 0, false)
      ensures over ==> forall c: Card :: Turn(player1.cards, player2.cards, c) == (player1.cards, player2.cards)
    {
      if |player1.cards| == 0 || |player2.cards| == 0 then true
      else
        assert BattleRun(player1.cards, player2.cards, [BattleInput(true, Rock)], 0).2 == 1;
        false
    }

    /** `get_game_result`: player 2 when player 1's hand is empty, else
        player 1. At the end of a game with exactly one empty hand, that is the
        participant still holding cards. */
    function GameResult(): (winner: Player)
      reads player1, player2
      ensures winner == player1 || winner == player2
      ensures IsGameOver() && (player1.cards != [] || player2.cards != []) ==>
                && (winner == player1 <==> player2.cards == [])
                && (winner == player2 <==> player1.cards == [])
    {
      if |player1.cards| == 0 then player2 else player1
    }
  }
}
