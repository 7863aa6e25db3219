/** The networked game session (`GameServer`): the auction phase over two
    point counters, the battle phase over two six-card hands, the final
    verdict, and the parallel client/name registry. Bids and card choices
    arrive from the two connections; `None` stands for a lost connection or a
    frame that does not parse, either of which ends the session. */
module Server {
  import opened Wrappers
  import opened Cards
  import opened Lists
  import opened Players

  /* ---------------- auction phase ---------------- */

  /** The bids received in one round, from client 0 and client 1. */
  datatype BidPair = BidPair(first: Option<int>, second: Option<int>)

  /** A resolved round: the winner index, the amount announced, and the two
      counters afterwards. */
  datatype RoundResult = RoundResult(winner: nat, amount: int, p1: int, p2: int)

  /** One round's bookkeeping (no validation of the bids). Client 0 wins only
      with a strictly higher bid; otherwise, ties included, client 1 wins. Only
      the winner's counter changes, by exactly its own bid, which is also the
      amount announced to both clients. */
  function AuctionRound(p1: int, p2: int, b1: int, b2: int): (r: RoundResult)
    ensures r.winner == 0 || r.winner == 1
    ensures r.winner == 0 <==> b1 > b2
    ensures r.winner == 0 ==> r.amount == b1 && r.p1 == p1 - b1 && r.p2 == p2
    ensures r.winner == 1 ==> r.amount == b2 && r.p2 == p2 - b2 && r.p1 == p1
  {
    var bids := [b1, b2];
    var winnerIdx := if bids[0] > bids[1] then 0 else 1;
    if winnerIdx == 0 then RoundResult(0, bids[0], p1 - bids[0], p2)
    else RoundResult(1, bids[1], p1, p2 - bids[1])
  }

  /** Equal bids, `0 == 0` included, are not a void round: client 1 wins and
      pays its bid. */
  lemma TiesGoToSecondClient(p1: int, p2: int, b: int)
    ensures AuctionRound(p1, p2, b, b) == RoundResult(1, b, p1, p2 - b)
  {
  }

  /** `AUCTION_RESULT:<WIN|LOSE>:<amount>` as sent to one client. */
  datatype AuctionResultMessage = AuctionResultMessage(win: bool, amount: int)

  function ResultMessageFor(r: RoundResult, client: nat): AuctionResultMessage
  {
    AuctionResultMessage(client == r.winner, r.amount)
  }

  /** Exactly one client is told WIN, and both are told the same amount. */
  lemma OneWinnerMessage(p1: int, p2: int, b1: int, b2: int)
    ensures var r := AuctionRound(p1, p2, b1, b2);
      && ResultMessageFor(r, 0).win != ResultMessageFor(r, 1).win
      && ResultMessageFor(r, 0).amount == ResultMessageFor(r, 1).amount
  {
  }

  /** How the auction phase ends: both counters below 100 (the battle follows),
      a failed receive, or the supply of rounds running out while the loop
      would still go on. */
  datatype AuctionEnd =
    | ToBattle(p1: int, p2: int)
    | AuctionAborted(p1: int, p2: int)
    | AuctionPending(p1: int, p2: int)

  /** The auction loop: rounds run while either counter is at least 100. */
  function AuctionRun(p1: int, p2: int, rounds: seq<BidPair>): AuctionEnd
    decreases |rounds|
  {
    if p1 < MINIMUM_BID && p2 < MINIMUM_BID then ToBattle(p1, p2)
    else if rounds == [] then AuctionPending(p1, p2)
    else if rounds[0].first.None? || rounds[0].second.None? then AuctionAborted(p1, p2)
    else
      var r := AuctionRound(p1, p2, rounds[0].first.value, rounds[0].second.value);
      AuctionRun(r.p1, r.p2, rounds[1..])
  }

  /** The auction phase moves to the battle exactly when both counters are
      below 100; while it has not, some counter is still at least 100. */
  lemma {:induction false} AuctionRunStopsBelowMinimum(p1: int, p2: int, rounds: seq<BidPair>)
    decreases |rounds|
    ensures var e := AuctionRun(p1, p2, rounds);
      && (e.ToBattle? ==> e.p1 < MINIMUM_BID && e.p2 < MINIMUM_BID)
      && (!e.ToBattle? ==> e.p1 >= MINIMUM_BID || e.p2 >= MINIMUM_BID)
  {
    if !(p1 < MINIMUM_BID && p2 < MINIMUM_BID) && rounds != [] && rounds[0].first.Some? && rounds[0].second.Some? {
      var r := AuctionRound(p1, p2, rounds[0].first.value, rounds[0].second.value);
      AuctionRunStopsBelowMinimum(r.p1, r.p2, rounds[1..]);
    }
  }

  /** The bids a client's prompt lets through, when its balance equals the
      server's counter: between 0 and that counter. */
  predicate HonestRounds(p1: int, p2: int, rounds: seq<BidPair>)
    decreases |rounds|
  {
    if p1 < MINIMUM_BID && p2 < MINIMUM_BID then true
    else if rounds == [] || rounds[0].first.None? || rounds[0].second.None? then true
    else
      var b1, b2 := rounds[0].first.value, rounds[0].second.value;
      && 0 <= b1 <= p1 && 0 <= b2 <= p2
      && var r := AuctionRound(p1, p2, b1, b2);
         HonestRounds(r.p1, r.p2, rounds[1..])
  }

  /** With such bids, neither counter ever grows nor becomes negative. */
  lemma {:induction false} HonestAuctionKeepsCounters(p1: int, p2: int, rounds: seq<BidPair>)
    requires p1 >= 0 && p2 >= 0
    requires HonestRounds(p1, p2, rounds)
    decreases |rounds|
    ensures var e := AuctionRun(p1, p2, rounds);
      0 <= e.p1 <= p1 && 0 <= e.p2 <= p2
  {
    if !(p1 < MINIMUM_BID && p2 < MINIMUM_BID) && rounds != [] && rounds[0].first.Some? && rounds[0].second.Some? {
      var r := AuctionRound(p1, p2, rounds[0].first.value, rounds[0].second.value);
      HonestAuctionKeepsCounters(r.p1, r.p2, rounds[1..]);
    }
  }

  /** `auction_phase`: both counters start at 1000; each round receives the
      two bids, picks the winner index and charges only the winner. */
  method AuctionPhase(rounds: seq<BidPair>) returns (end: AuctionEnd)
    ensures end == AuctionRun(STARTING_POINTS, STARTING_POINTS, rounds)
  {
    var player1Points, player2Points := STARTING_POINTS, STARTING_POINTS;
    var i := 0;
    while player1Points >= MINIMUM_BID || player2Points >= MINIMUM_BID
      invariant 0 <= i <= |rounds|
      invariant AuctionRun(player1Points, player2Points, rounds[i..]) == AuctionRun(STARTING_POINTS, STARTING_POINTS, rounds)
      decreases |rounds| - i
    {
      if i == |rounds| {
        return AuctionPending(player1Points, player2Points);
      }
      var pair := rounds[i];
      if pair.first.None? || pair.second.None? {
        return AuctionAborted(player1Points, player2Points);
      }
      var bids := [pair.first.value, pair.second.value];
      var winnerIdx := if bids[0] > bids[1] then 0 else 1;
      if winnerIdx == 0 {
        player1Points := player1Points - bids[0];
      } else {
        player2Points := player2Points - bids[1];
      }
      assert rounds[i..][1..] == rounds[i + 1..];
      i := i + 1;
    }
    return ToBattle(player1Points, player2Points);
  }

  /* ---------------- battle phase ---------------- */

  /** The cards received in one turn, from client 0 and client 1. */
  datatype Plays = Plays(first: Option<Card>, second: Option<Card>)

  /** One turn's bookkeeping: on "P1_WIN" one instance of client 1's card
      leaves its hand, on "P2_WIN" one of client 0's; a tie changes nothing.
      `list.remove` of a card the hand lacks raises, which ends the phase
      (`None`). Only the loser's hand changes, losing the first instance of its card
      with the rest in order, and the step fails exactly when the loser's card
      is not in its hand. */
  function BattleStep(h1: seq<Card>, h2: seq<Card>, c1: Card, c2: Card): (r: Option<(seq<Card>, seq<Card>)>)
    ensures c1 == c2 ==> r == Some((h1, h2))
    ensures Beats(c1, c2) ==> (r.Some? <==> c2 in h2)
    ensures Beats(c1, c2) && r.Some? ==>
              r.value.0 == h1 && r.value.1 == RemoveFirst(h2, c2) &&
              |r.value.1| == |h2| - 1 && multiset(r.value.1) == multiset(h2) - multiset{c2}
    ensures Beats(c2, c1) ==> (r.Some? <==> c1 in h1)
    ensures Beats(c2, c1) && r.Some? ==>
              r.value.1 == h2 && r.value.0 == RemoveFirst(h1, c1) &&
              |r.value.0| == |h1| - 1 && multiset(r.value.0) == multiset(h1) - multiset{c1}
  {
    var result := DetermineWinner(c1, c2);
    if result == "P1_WIN" then (if c2 in h2 then Some((h1, RemoveFirst(h2, c2))) else None)
    else if result == "P2_WIN" then (if c1 in h1 then Some((RemoveFirst(h1, c1), h2)) else None)
    else Some((h1, h2))
  }

  /** How the battle phase ends. `GameOver` carries the announced winner. */
  datatype BattleEnd =
    | GameOver(winner: string, h1: seq<Card>, h2: seq<Card>)
    | BattleAborted(h1: seq<Card>, h2: seq<Card>)
    | BattlePending(h1: seq<Card>, h2: seq<Card>)

  /** `GAME_OVER:<winner>`: "Player 2" when client 0's hand is empty. */
  function Verdict(h1: seq<Card>): string
  {
    if h1 == [] then "Player 2" else "Player 1"
  }

  /** The battle loop: turns run while both hands are non-empty. */
  function BattleRun(h1: seq<Card>, h2: seq<Card>, turns: seq<Plays>, i: nat): BattleEnd
    requires i <= |turns|
    decreases |turns| - i
  {
    if h1 == [] || h2 == [] then GameOver(Verdict(h1), h1, h2)
    else if i == |turns| then BattlePending(h1, h2)
    else if turns[i].first.None? || turns[i].second.None? then BattleAborted(h1, h2)
    else
      match BattleStep(h1, h2, turns[i].first.value, turns[i].second.value)
      case None => BattleAborted(h1, h2)
      case Some((n1, n2)) => BattleRun(n1, n2, turns, i + 1)
  }

  /** A successful turn on two non-empty hands leaves at least one of them
      non-empty and adds no card to either. */
  lemma StepKeepsAHolder(h1: seq<Card>, h2: seq<Card>, c1: Card, c2: Card)
    requires h1 != [] && h2 != [] && BattleStep(h1, h2, c1, c2).Some?
    ensures var (n1, n2) := BattleStep(h1, h2, c1, c2).value;
      && (n1 != [] || n2 != [])
      && multiset(n1) <= multiset(h1) && multiset(n2) <= multiset(h2)
  {
  }

  /** The battle ends exactly when one hand is empty, never both; the winner
      announced is the client still holding cards. Cards only ever leave. */
  lemma {:induction false} BattleRunDeclaresHolder(h1: seq<Card>, h2: seq<Card>, turns: seq<Plays>, i: nat)
    requires i <= |turns|
    requires h1 != [] || h2 != []
    decreases |turns| - i
    ensures var e := BattleRun(h1, h2, turns, i);
      && (e.GameOver? <==> e.h1 == [] || e.h2 == [])
      && (e.GameOver? ==> (e.h1 == []) != (e.h2 == []))
      && (e.GameOver? ==> (e.winner == "Player 2" <==> e.h1 == []) && (e.winner == "Player 1" <==> e.h2 == []))
      && multiset(e.h1) <= multiset(h1) && multiset(e.h2) <= multiset(h2)
  {
    if h1 == [] || h2 == [] {
      assert "Player 1" != "Player 2" by { assert "Player 1"[7] != "Player 2"[7]; }
    } else if i < |turns| && turns[i].first.Some? && turns[i].second.Some? {
      var c1, c2 := turns[i].first.value, turns[i].second.value;
      var step := BattleStep(h1, h2, c1, c2);
      if step.Some? {
        var (n1, n2) := step.value;
        StepKeepsAHolder(h1, h2, c1, c2);
        assert BattleRun(h1, h2, turns, i) == BattleRun(n1, n2, turns, i + 1);
        BattleRunDeclaresHolder(n1, n2, turns, i + 1);
      }
    }
  }

  /** `battle_phase`: both hands start as two cards of each kind, whatever the
      auction did; each turn removes the loser's played card. */
  method BattlePhase(turns: seq<Plays>) returns (end: BattleEnd)
    ensures end == BattleRun(TWO_OF_EACH, TWO_OF_EACH, turns, 0)
  {
    var player1Cards, player2Cards := TWO_OF_EACH, TWO_OF_EACH;
    var i := 0;
    while player1Cards != [] && player2Cards != []
      invariant 0 <= i <= |turns|
      invariant BattleRun(player1Cards, player2Cards, turns, i) == BattleRun(TWO_OF_EACH, TWO_OF_EACH, turns, 0)
      decreases |turns| - i
    {
      if i == |turns| {
        return BattlePending(player1Cards, player2Cards);
      }
      var plays := turns[i];
      if plays.first.None? || plays.second.None? {
        return BattleAborted(player1Cards, player2Cards);
      }
      var c1, c2 := plays.first.value, plays.second.value;
      ghost var step := BattleStep(player1Cards, player2Cards, c1, c2);
      var result := DetermineWinner(c1, c2);
      if result == "P1_WIN" {
        if c2 !in player2Cards {
          assert step.None?;
          return BattleAborted(player1Cards, player2Cards);
        }
        player2Cards := RemoveFirst(player2Cards, c2);
      } else if result == "P2_WIN" {
        if c1 !in player1Cards {
          assert step.None?;
          return BattleAborted(player1Cards, player2Cards);
        }
        player1Cards := RemoveFirst(player1Cards, c1);
      }
      assert step == Some((player1Cards, player2Cards));
      i := i + 1;
    }
    var winner := if player1Cards == [] then "Player 2" else "Player 1";
    return GameOver(winner, player1Cards, player2Cards);
  }

  /* ---------------- the whole session ---------------- */

  datatype SessionEnd = Won(winner: string) | SessionAborted | SessionPending

  /** The session: the auction phase, then, once it completes, the battle. */
  function Session(rounds: seq<BidPair>, turns: seq<Plays>): SessionEnd
  {
    match AuctionRun(STARTING_POINTS, STARTING_POINTS, rounds)
    case AuctionAborted(_, _) => SessionAborted
    case AuctionPending(_, _) => SessionPending
    case ToBattle(_, _) =>
      match BattleRun(TWO_OF_EACH, TWO_OF_EACH, turns, 0)
      case GameOver(w, _, _) => Won(w)
      case BattleAborted(_, _) => SessionAborted
      case BattlePending(_, _) => SessionPending
  }

  /** The auction's outcome has no bearing on the battle: two sessions whose
      auctions both complete end the same way on the same turns, and a won
      session names one of the two clients. */
  lemma BattleIgnoresAuction(rounds: seq<BidPair>, otherRounds: seq<BidPair>, turns: seq<Plays>)
    requires AuctionRun(STARTING_POINTS, STARTING_POINTS, rounds).ToBattle?
    requires AuctionRun(STARTING_POINTS, STARTING_POINTS, otherRounds).ToBattle?
    ensures Session(rounds, turns) == Session(otherRounds, turns)
    ensures Session(rounds, turns).Won? ==> Session(rounds, turns).winner in {"Player 1", "Player 2"}
  {
    BattleRunDeclaresHolder(TWO_OF_EACH, TWO_OF_EACH, turns, 0);
  }

  /** `start_game` through `auction_phase`, which hands over to `battle_phase`. */
  method StartGame(rounds: seq<BidPair>, turns: seq<Plays>) returns (end: SessionEnd)
    ensures end == Session(rounds, turns)
  {
    var auction := AuctionPhase(rounds);
    if auction.AuctionAborted? {
      return SessionAborted;
    } else if auction.AuctionPending? {
      return SessionPending;
    }
    var battle := BattlePhase(turns);
    match battle
    case GameOver(w, _, _) => end := Won(w);
    case BattleAborted(_, _) => end := SessionAborted;
    case BattlePending(_, _) => end := SessionPending;
  }

  /* ---------------- client registry ---------------- */

  /** A connection's identity. */
  type Socket = nat

  /** `clients` and `player_names`: parallel lists, index i naming client i. */
  class Roster {
    var clients: seq<Socket>
    var playerNames: seq<string>

    ghost predicate Valid()
      reads this
    {
      |clients| == |playerNames|
    }

    constructor ()
      ensures Valid() && clients == [] && playerNames == []
    {
      clients := [];
      playerNames := [];
    }

    /** A connection that sent its name joins both lists at the same index. */
    method Register(socket: Socket, name: string)
      requires Valid()
      modifies this
      ensures Valid()
      ensures clients == old(clients) + [socket] && playerNames == old(playerNames) + [name]
    {
      clients := clients + [socket];
      playerNames := playerNames + [name];
    }

    /** `remove_client`: drop the socket and the name at its index, so the
        lists stay parallel; an unknown socket changes nothing. */
    method RemoveClient(socket: Socket)
      requires Valid()
      modifies this
      ensures Valid()
      ensures socket !in old(clients) ==> clients == old(clients) && playerNames == old(playerNames)
      ensures socket in old(clients) ==>
                var i := IndexOf(old(clients), socket);
                && clients == old(clients)[..i] + old(clients)[i + 1..]
                && playerNames == old(playerNames)[..i] + old(playerNames)[i + 1..]
    {
      if socket in clients {
        var idx := IndexOf(clients, socket);
        RemoveFirstDeletesAt(clients, socket, idx);
        clients := RemoveFirst(clients, socket);
        playerNames := playerNames[..idx] + playerNames[idx + 1..];
      }
    }
  }
}
