# Rock-paper-scissors with auctioned cards — a Dafny model of the game rules

The repository is a two-participant card game. First comes an auction phase. Each
round offers one card of the three kinds, Scissors (가위), Rock (바위) and Paper (보).
The higher bidder pays its own bid and takes the card. The auction runs until the
point balances are too low to bid (below 100). Then comes a battle phase. Each turn,
both sides play a card, and the loser under the rock-paper-scissors rule loses that
card. The battle runs until one hand is empty.

The rules exist in three copies, each with its own quirks:

- the local game: `player.py`, `auction.py` and `game_logic.py`;
- the network server: `server.py`, which keeps two point counters and two six-card
  hands as local variables;
- the client: `client.py`. It keeps its own balance and hands, and it also runs a
  separate game against an AI.

The model follows each copy as written, with these exceptions:

- The local game's battle (`GameLogic.Game.PlayTurn` and `GameLogic.Game.BattlePhase`)
  plays the corrected turn `GameLogic.Turn`, not `play_turn` as written. `play_turn`
  never removes a card, and that is recorded under "## Findings" with
  `GameLogic.TurnAsWritten`.
- `Server.AuctionPhase` treats the card draw at `server.py:141` as succeeding, where
  the code calls a method `auction.py` does not define.
- `GameLogic.Game.AuctionPhase` calls `collect_bids` directly, where
  `game_logic.py:57` goes through an attribute `__init__` never sets.
- `Client.GameClient.HandleBattle` models the state update that follows the result's
  fields, which the unpack at `client.py:217` never reaches as written.

"## Left out" gives the details of the last three.

| module | file | models |
|---|---|---|
| `Cards` | `cards.dfy` | the card kinds and the win rule `Compare`, specified against an independent reference: a kind beats the kind just before it on the cycle Scissors → Rock → Paper → Scissors |
| `Lists` | `lists.dfy` | Python's `list.remove` and `list.index` |
| `Players` | `player.dfy` | class `Player`: balance, ordered hand, `bid_points`, `add_card`, `use_card` |
| `Auctions` | `auction.dfy` | `collect_bids`: bid coercion, the AI's capped draw, and settlement that voids the round on equal bids |
| `GameLogic` | `game_logic.dfy` | class `Game`: the activity flag, the auction and battle loops, `play_turn` and the verdict |
| `Server` | `server.dfy` | the session: the auction loop, the battle loop, the verdict and the parallel `clients`/`player_names` registry |
| `Client` | `client.dfy` | class `GameClient`: input prompts, state updates on server results, and the whole AI game |

The copies disagree with each other, and in two places with a docstring. Each part of
the model follows its own file:

- `auction.py:44-45` voids a round on equal bids. The server (`server.py:162`)
  instead awards a tie to the second client, which pays its bid, even on `0 == 0`.
- `auction.py:27` accepts only bids in [100, points]. The server checks none of
  the bids it receives (`server.py:155-166`).
- A docstring promises 3000 starting points. The code sets 1000 (`player.py:11`).
- The `auction_phase` docstring (`game_logic.py:49`) says the phase ends once either
  participant is below 100 points. The code continues while either has at least 100
  (`game_logic.py:41`) and clears the flag only when both are below 100
  (`game_logic.py:63-65`). The model follows the code.

Random draws, typed input and received frames are parameters:

- `Option<int>` stands for a typed bid; `None` means non-numeric input.
- `Option` values stand for a received bid or card; `None` means a lost connection or
  an unparsable frame, and it ends the session.
- A `nat` draw stands for `random.randint(0, m)` as `draw % (m + 1)`, and for
  `random.choice(hand)` as `hand[draw % |hand|]`.
- A phase loop runs over a finite list of round inputs. When the list runs out
  before the loop's guard fails, the result is a "pending" value: the program
  would still be waiting for input.

## Model

| member | source | states |
|---|---|---|
| Cards.Compare | VSCpythonRSP/game_logic.py:127-140 | equal kinds tie; otherwise the first card wins exactly when it beats the second under the reference cycle rule, and the second wins exactly when it beats the first |
| Cards.CompareSwapped | VSCpythonRSP/server.py:231-240 | swapping the two cards swaps the two wins and keeps a tie a tie |
| Cards.BeatsIsACycle | VSCpythonRSP/client.py:347-356 | the rule is total and cyclic: every kind beats exactly one kind, loses to exactly one kind, and does not beat itself |
| Cards.TwoOfEachCounts | VSCpythonRSP/server.py:184-185 | the six-card battle hand holds exactly two cards of each kind |
| Lists.RemoveFirst | VSCpythonRSP/player.py:31-34 | removing a present element shortens the list by one and takes exactly one instance of that element from its multiset; removing an absent element changes nothing |
| Lists.IndexOf | VSCpythonRSP/server.py:83-84 | `index` yields a position holding the element with no earlier occurrence |
| Lists.IndexOfUnique | VSCpythonRSP/server.py:83-85 | that first position is unique, so `index` and `remove` pick the same element |
| Lists.RemoveFirstDeletesAt | VSCpythonRSP/player.py:31-34 | `remove` deletes exactly the first occurrence, and the other elements keep their order |
| Players.Player.constructor | VSCpythonRSP/player.py:9-12 | a new player has 1000 points and the hand [Scissors, Rock, Paper], in that order |
| Players.Player.BidPoints | VSCpythonRSP/player.py:14-22 | the call succeeds iff the amount is at most the balance; on success the balance drops by exactly the amount, on failure nothing changes; the hand is never touched; a non-negative balance and amount leave a non-negative balance |
| Players.Player.AddCard | VSCpythonRSP/player.py:24-27 | the card is appended; the length grows by one and the old hand is an unchanged prefix |
| Players.Player.UseCard | VSCpythonRSP/player.py:29-35 | the call succeeds iff a card of that kind is held; the hand becomes the old hand with its first such card removed, one card shorter; otherwise it is unchanged |
| Auctions.PlayerBid | VSCpythonRSP/auction.py:22-29 | the human's effective bid is the typed amount when it lies in [100, points], and 0 otherwise, including non-numeric input |
| Auctions.AiBid | VSCpythonRSP/auction.py:35-41 | with at least 100 points the AI bids min(draw, points): the draw when it is within the balance, the whole balance otherwise, and in both cases a value in [100, points]; with fewer than 100 points it bids 0; it never exceeds a non-negative balance |
| Auctions.TieIsVoid | VSCpythonRSP/auction.py:44-45 | equal effective bids, `0 == 0` included, leave both sides' points and hands unchanged |
| Auctions.HigherBidderPaysAndTakes | VSCpythonRSP/auction.py:46-55 | a strictly higher bidder pays exactly its own bid and gets the card appended; the other side is unchanged |
| Auctions.RoundChangesAtMostOneSide | VSCpythonRSP/auction.py:27-55 | in a full round at most one side changes; no balance goes negative or grows; the hands together gain the card or nothing |
| Auctions.CollectBids | VSCpythonRSP/auction.py:16-55 | the two participants' new points and hands are the settlement of their old state under the coerced bids |
| Cards.DetermineWinner | VSCpythonRSP/game_logic.py:127-140 | returns "TIE" iff the kinds are equal, "P1_WIN" iff the first beats the second, and "P2_WIN" iff the second beats the first; `determine_winner` at server.py:231-240 is the same function |
| GameLogic.TurnAsWritten | VSCpythonRSP/game_logic.py:115-123 | as written, `play_turn` leaves both hands unchanged on every input |
| GameLogic.Turn | VSCpythonRSP/game_logic.py:88-123 | the turn is void (no hand changes) when player 1 lacks the named card, when player 2's hand is empty, or on a tie; otherwise only the loser loses the first instance of the card it played, and the hand keeps its order |
| GameLogic.TurnOnlyRemoves | VSCpythonRSP/game_logic.py:88-123 | a turn never gives a card: each hand keeps a sub-multiset of its cards, and the two hands together lose at most one card |
| GameLogic.TurnAsWrittenKeepsLosersCard | VSCpythonRSP/game_logic.py:115-123 | on Rock against Scissors, the turn as written keeps the loser's Scissors, while the intended turn removes it |
| GameLogic.CanContinueAuction | VSCpythonRSP/game_logic.py:36-41 | the auction can continue iff the flag is set and at least one participant can still make a non-zero bid: the human a bid of 100, or the AI any bid |
| GameLogic.AuctionRunFacts | VSCpythonRSP/game_logic.py:51-65 | over any rounds, the auction loop stops early only when `can_continue_auction` fails; the flag is cleared only once both balances are below 100; balances never grow; each hand keeps its old cards as a prefix, and the two hands gain at most one card a round |
| GameLogic.BattleRunEnds | VSCpythonRSP/game_logic.py:81-86 | over any turns, the battle loop ends with a hand empty unless the user stopped it at a turn whose answer was not to go on, or the input ran out |
| GameLogic.TurnKeepsAHolder | VSCpythonRSP/game_logic.py:88-123 | a turn between two non-empty hands leaves at least one hand non-empty |
| GameLogic.BattleRunKeepsAHolder | VSCpythonRSP/game_logic.py:159-168 | a battle begun with a card in some hand ends with a card in some hand, so both hands never run out together and the verdict always has a holder to name |
| GameLogic.BattleRunOnlyRemoves | VSCpythonRSP/game_logic.py:81-86 | over any turns, each hand keeps a sub-multiset of its cards, and at most one card is lost per turn played |
| GameLogic.Game.constructor | VSCpythonRSP/game_logic.py:14-17 | a new game holds the two given players, and the auction flag is set |
| GameLogic.Game.AuctionRound | VSCpythonRSP/game_logic.py:51-65 | one round settles `collect_bids`; afterwards the flag is set iff it was set before and some player still has at least 100 points; together, the new state is `AuctionStep` of the old one |
| GameLogic.Game.AuctionPhase | VSCpythonRSP/game_logic.py:43-67 | the final balances, hands and flag and the number of rounds played are `AuctionRun` of the old state over the rounds; the loop stops early only when `can_continue_auction` fails; the flag is cleared only once both balances are below 100; balances never grow; each hand keeps its old cards as a prefix |
| GameLogic.Game.PlayTurn | VSCpythonRSP/game_logic.py:88-125 | the hands become the intended turn's result, and the balances are unchanged |
| GameLogic.Game.BattlePhase | VSCpythonRSP/game_logic.py:69-86 | the final hands, the number of turns played and whether the user stopped are `BattleRun` of the old hands over the turns; unless stopped or out of input, the game is over, and when a card was held at the start, exactly one hand is empty; no card is gained; balances are unchanged |
| GameLogic.Game.IsGameOver | VSCpythonRSP/game_logic.py:159-161 | the game is over iff the battle loop would end at once whatever the next input; then no turn changes either hand |
| GameLogic.Game.GameResult | VSCpythonRSP/game_logic.py:163-168 | the result is one of the two players; when the game is over and a hand still holds cards, it names the player with cards and never the one with an empty hand |
| Server.AuctionRound | VSCpythonRSP/server.py:161-166 | the winner index is 0 iff bid 0 is strictly higher than bid 1, and 1 otherwise; only the winner's counter changes, by exactly its own bid, which is the amount announced |
| Server.TiesGoToSecondClient | VSCpythonRSP/server.py:162 | equal bids, `0 == 0` included, make client 1 the winner and charge it its bid |
| Server.OneWinnerMessage | VSCpythonRSP/server.py:168-172 | exactly one client is told WIN, and both are told the same amount |
| Server.AuctionRunStopsBelowMinimum | VSCpythonRSP/server.py:139 | the auction hands over to the battle only when both counters are below 100; while it has not, some counter is at least 100 |
| Server.HonestAuctionKeepsCounters | VSCpythonRSP/server.py:139-166 | when every bid lies between 0 and the bidder's counter, no counter grows or becomes negative |
| Server.AuctionPhase | VSCpythonRSP/server.py:133-179 | starting from 1000 and 1000, the loop's result is the auction run over the received bids, including abort on a failed receive |
| Server.BattleStep | VSCpythonRSP/server.py:206-213 | a tie changes nothing; a decisive turn removes the first instance of the loser's played card from the loser's hand only, keeping the rest in order, and fails (the `remove` raises) exactly when that hand lacks the card |
| Server.StepKeepsAHolder | VSCpythonRSP/server.py:187-213 | a turn on two non-empty hands leaves at least one of them non-empty and adds no card |
| Server.BattleRunDeclaresHolder | VSCpythonRSP/server.py:187-229 | the battle ends exactly when a hand is empty, and never both; the winner announced is "Player 2" iff client 0's hand is empty; cards only leave |
| Server.BattlePhase | VSCpythonRSP/server.py:181-229 | starting from two six-card hands, the loop's result is the battle run over the received cards, including abort on a failed receive or a failed `remove` |
| Server.BattleIgnoresAuction | VSCpythonRSP/server.py:184-185 | whenever the auction completes, the session's outcome is independent of the bids, and a won session names "Player 1" or "Player 2" |
| Server.StartGame | VSCpythonRSP/server.py:117-131 | the session runs the auction phase, then, only if it completed, the battle phase |
| Server.Roster.constructor | VSCpythonRSP/server.py:18-19 | the socket and name lists start empty and parallel |
| Server.Roster.Register | VSCpythonRSP/server.py:66-67 | the socket and the name are appended at the same index |
| Server.Roster.RemoveClient | VSCpythonRSP/server.py:80-89 | a known socket and the name at its index are both deleted, keeping the lists parallel; an unknown socket changes nothing |
| Client.PlayerResult | VSCpythonRSP/client.py:347-356 | "TIE" iff the kinds are equal, "WIN" iff the first beats the second, "LOSE" iff the second beats the first |
| Client.AgreesWithServer | VSCpythonRSP/client.py:347-356 | the client's WIN/LOSE/TIE coincide with the server's P1_WIN/P2_WIN/TIE on every pair |
| Client.PromptBid | VSCpythonRSP/client.py:290-297 | the prompt returns `FirstAcceptableBid` of the entries: the first entry that is a number between 0 and the balance; every earlier entry was refused; with no such entry it returns nothing |
| Client.PromptCard | VSCpythonRSP/client.py:321-325 | the prompt returns `FirstHeldCard` of the entries: the first entry the hand holds; every earlier entry was refused; with no such entry it returns nothing |
| Client.ClientsTrackServerCounters | VSCpythonRSP/client.py:177-179 | if each client's balance equals its server counter and each bid passed the prompt, then applying its result message gives it the server's new counter, and neither is negative |
| Client.FirstAcceptableBid | VSCpythonRSP/client.py:290-297 | the bid the prompt settles on is one of the entries and lies between 0 and the balance |
| Client.FirstHeldCard | VSCpythonRSP/client.py:321-325 | the card the prompt settles on is one of the entries and is in the hand |
| Client.AiDrawBid | VSCpythonRSP/client.py:300 | the AI's bid lies in [0, min(points, 300)] |
| Client.AiDrawCard | VSCpythonRSP/client.py:328 | the AI plays a card it holds |
| Client.AiAuctionRunKeeps | VSCpythonRSP/client.py:272-273 | over any rounds, the AI-mode auction loop keeps the balance in [0, old], ends only with a balance below 100, and each hand keeps its old cards as a prefix |
| Client.AiBattleStepKeepsAHolder | VSCpythonRSP/client.py:331-343 | a turn on two non-empty hands with held cards leaves a hand non-empty, adds no card and does not touch the balance |
| Client.AiBattleRunEnds | VSCpythonRSP/client.py:276-277 | over any turns, the AI-mode battle loop ends with exactly one empty hand, adds no card and leaves the balance unchanged |
| Client.AiGameVerdict | VSCpythonRSP/client.py:266-281 | for any inputs, the balance stays in [0, old]; a finished game has a balance below 100 and exactly one empty hand; the human wins exactly when the AI's hand is the empty one |
| Client.AiStartsWithTwoOfEach | VSCpythonRSP/client.py:268 | whatever the AI held before, it starts with two cards of each kind: a human below 100 points with no cards loses to an AI holding exactly those six |
| Client.GameClient.constructor | VSCpythonRSP/client.py:9-18 | a new client has 1000 points and empty hands |
| Client.GameClient.HandleAuction | VSCpythonRSP/client.py:175-182 | WIN lowers the balance by the announced amount and appends the card; LOSE changes nothing |
| Client.GameClient.HandleBattle | VSCpythonRSP/client.py:217-232 | the opponent hand becomes the server's list; TIE changes nothing more; WIN removes the opponent's card from that list if present; any other result removes `my_card` from the own hand only if present |
| Client.GameClient.HandleAiAuction | VSCpythonRSP/client.py:303-309 | only a strictly higher human bid wins, costing that bid and appending the card; otherwise, ties included, the AI gets the card and the balance is unchanged; the balance stays in [0, old] |
| Client.GameClient.HandleAiBattle | VSCpythonRSP/client.py:333-343 | WIN makes the AI's hand its old hand with the first instance of the AI's card removed, LOSE does the same to the human's hand with the human's card, and TIE changes nothing; the other hand and the balance are unchanged |
| Client.GameClient.StartAiMode | VSCpythonRSP/client.py:266-281 | the outcome and the state reached are `AiGame` of the old state: the AI's hand is replaced by two cards of each kind, then the auction loop runs while the balance is at least 100 and the battle loop while both hands are non-empty; a finished game has a balance below 100 and exactly one empty hand, and the human wins iff the AI's hand is empty |

## Findings

| source | as written | input that shows it | evidently intended | confidence | as-written member | corrected member |
|---|---|---|---|---|---|---|
| VSCpythonRSP/game_logic.py:115-123 | `play_turn` compares the result with 'tie', 'player1' and 'player2'. `determine_winner` returns 'TIE', 'P1_WIN' and 'P2_WIN', so no branch matches and no card is ever removed | player 1 plays Rock and player 2's first card is Scissors: player 2 keeps its Scissors | the loser's played card is removed (the docstrings at game_logic.py:70-74 and 89-93) | high; derived from the text, not executed | GameLogic.TurnAsWritten | GameLogic.Turn |

## Left out

- Sockets, the accept loop, per-connection threads, timeouts, connection retries, the
  sending and receiving of frames, and `cleanup` are left out. They are transport,
  with no game rule in them.
- The wire format is left out. This covers splitting frames on `:` and `,`, `int()`
  parsing, and the `OPPONENT`, `AUCTION_CARD`, `BATTLE_START` and `BATTLE_RESULT`
  texts. A frame enters the model as an already-parsed value, or `None`.
- Console I/O, screen clearing, sleeps and the display and game-over printing
  helpers are left out. The verdicts they print are modelled.
- Randomness is not modelled as a distribution. Each draw is a parameter (see the
  introduction).
- `main.py`, `create_player` and the `cards` module are not part of this model. A
  card is just its kind.
- The phase loops can run forever: repeated ties, and repeated zero or refused bids.
  The model runs each loop over a finite input list and reports "pending" when the
  list runs out.
- Card names outside the three kinds are not modelled. The server and client keep
  cards as strings, so any other name can reach them.
- Server.AuctionPhase: `server.py:141` calls `auction.get_current_card()`, which
  `auction.py` does not define. As written, that call raises, and the phase returns
  on the first round. The model treats the draw as succeeding. The drawn card plays
  no part in the server's bookkeeping.
- GameLogic.Game.AuctionPhase: `game_logic.py:57` calls `self.auction_system`, which
  `__init__` never sets. The model calls `collect_bids` directly.
- Client.GameClient.HandleBattle models the state update only after the result's
  fields have been extracted. Three problems stay outside the model because they
  are in the wire handling:
  - `client.py:217` unpacks four names from the five fields of a `BATTLE_RESULT`
    frame.
  - The server sends P1_WIN and P2_WIN, never WIN, so the client would take the
    losing branch on every decisive turn.
  - The list the server sends already lacks the removed card, and the client
    removes it again.
- In network play, the client's own hand starts empty (`client.py:14`) and only
  gains auction cards, while the server battles with six fixed cards per side. The
  client's card prompt accepts only cards from its own hand. The model keeps the two
  hands separate, as the code does.
- Lists.RemoveFirst returns the list unchanged on an absent element, where Python's
  `list.remove` raises. The local game and the client remove only cards known to be
  held: `player.py:31-34` and `client.py:227-232` test first, and `play_turn` and the
  AI mode take the removed card from the hand. The exception is the server's
  unguarded `remove` at `server.py:211` and `server.py:213`. There an absent card
  raises and ends the battle phase, which `Server.BattleStep` models as `None`
  before it calls `RemoveFirst`.
- Players.Player.AddCard does not model the `isinstance(card, Card)` guard. The type
  `Card` already rules out anything else.
