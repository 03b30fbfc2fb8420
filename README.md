# A verified model of the Hold'em table engine

This project models the game engine of `Backend/server.js`, a single-table Texas Hold'em
server. It keeps one global `gameState` record with these fields:

- the phase (lobby, pre-flop, flop, turn, river, showdown);
- the pot;
- the board and the deck;
- the seated players;
- the turn index, the dealer button and the table bet.

The server rebuilds and shuffles the deck, deals hole cards and posts the blinds
(`startNewHand`). It applies fold, call, raise and check and passes the turn on
(`handlePlayerAction`). It advances the street and, at the river, pays a randomly drawn
unfolded player (`nextPhase`, `determineWinners`). Bots play a check/call/fold rule
(`botPlay`). Before each broadcast the bots' cards are hidden in the players list
(`broadcastState`), though the deck itself goes out with the record (see "Findings").

There are five modules:

- `Cards` (`cards.dfy`): cards, the deck that `createDeck` builds and the shuffle.
  `CreateDeck` keeps the nested push loops.
- `Seats` (`seats.dfy`): clockwise seat arithmetic, `(i + 1) % n`, and walks around the table.
- `Holdem` (`holdem.dfy`): the value `GameState` and one function per engine operation.
  These functions are what each operation means: `StartHand`, `Commit`, `AfterAction`,
  `HandleAction`, `NextPhase`, `Settle`, `DetermineWinners`, `BotDecision` and `Sanitize`.
- `Server` (`server.dfy`): class `Game`, whose fields are those of `gameState`. Its
  methods change them in place with the loops of the source: the reset-and-deal
  `forEach`, the blind posting, the bet-collecting `forEach`, the deck pops, the payout
  `forEach`, the `while (hasFolded)` reopening loop and the `loopSafety` turn search.
  Each method is proved to leave exactly the state its `Holdem` function describes.
- `HoldemProps` (`holdem_props.dfy`): what the engine guarantees. It covers:
  - chip conservation;
  - the card stack;
  - the hand set-up;
  - the rules of each action;
  - turn order and round completion;
  - the phase progression and payout;
  - the hidden-card broadcast;
  - a heads-up opening;
  - an invariant of every state reached between actions.

Random choices become parameters:

- The shuffle `d.sort(() => Math.random() - 0.5)` becomes the permutation `order` of 0..51
  that the sort ends up applying.
- The winner draw `Math.floor(Math.random() * n)` becomes `roll % n` for an arbitrary `roll`.
- The bot's `Math.random() > 0.2` becomes the boolean `callDraw`.

Where the source would crash or hang, the model has a precondition instead:

- an empty table;
- a deck too short for the next pop. A new hand pops 2 cards per player and the board
  takes 5 more, so a full hand needs 2n + 5 ≤ 52, that is at most 23 players. From 24
  players on, a later street pops an empty deck and the source puts `undefined` on the
  board; at 27 or more the hole cards already run out. A card cannot be `undefined`;
- `nextPhase` reached with every player folded. Then `winners[0]` is undefined and the
  reopening `while` never ends.

The model follows the code where the code and the design of a fuller poker engine differ:

- Conservation is `pot + Σ chips`, not `pot + Σ currentBet + Σ chips`. Every bet is
  added to the pot at once (`pot += actualBet`), so adding the bets again would count
  them twice.
- `isAllIn` is read by the turn search but never set to true; the invariant
  `HoldemProps.Table` records that nobody is ever all-in.
- A raise carries the new total bet. It is accepted whenever the stack covers it, with no
  minimum, and `minRaise` is never used.
- Blinds are posted even when they drive a stack negative.
- A raise the stack cannot cover still passes the turn, exactly like a check. So does an
  unknown action name.
- There is no `hasActed` flag and no big-blind option. The round ends as soon as every
  eligible bet matches and, in addition, either the next seat is dealer + 1 or fewer than
  two eligible players remain.
- There is no all-in run-out, no side pot and no remainder policy. The single winner
  takes `floor(pot / 1)`, that is, the whole pot.
- Folding to one player does not end the hand. The last unfolded player still acts alone
  on every remaining street: each of their actions closes the round, since fewer than two
  eligible players remain once their bet matches, and the river then pays them the pot.
- `nextPhase` does not schedule a new hand.

## Model

| member | source | states |
|---|---|---|
| Cards.CreateDeck | Backend/server.js:41-47 | the nested loops build the 4 × 13 deck in suit-then-rank order. The result is that deck reordered by the given permutation: 52 distinct cards, every card present |
| Cards.OrderedDeck | Backend/server.js:42-45 | the unshuffled deck has 52 cards, no card twice, and contains every (suit, rank) pair |
| Cards.ShuffleIsPermutation | Backend/server.js:46 | reordering a deck of distinct cards by a permutation keeps its size, its distinctness and exactly the same cards |
| Server.Game.constructor | Backend/server.js:24-35 | the initial record: lobby, empty pot, board and deck, no players, turn index -1, dealer 0, table bet 0, `minRaise` 20 |
| Server.Game.StartNewHand | Backend/server.js:75-106 | leaves exactly `StartHand` of the old state applied to the freshly shuffled deck |
| Server.Game.DealHands | Backend/server.js:84-90 | the reset loop: player i gets the cards at depth 2i and 2i+1 from the top and is reset; the deck loses 2n cards from the top |
| Server.Game.PostBlindAt | Backend/server.js:99-103 | one blind: only that seat changes, its stack drops by the blind and its bet becomes the blind |
| HoldemProps.StartHandResets | Backend/server.js:77-90 | after a new hand: pot 30, table bet 20, pre-flop, empty board, deck shorter by 2n. Every player is unfolded, not all-in, not a winner and holds 2 cards, with the same id, socket and human flag |
| HoldemProps.StartHandBlinds | Backend/server.js:93-106 | the button moves one seat clockwise, the first actor is 3 seats after it. Only the seats 1 and 2 after the button lose chips, exactly by the small and big blind, and only they have a bet (10 and 20) |
| HoldemProps.StartHandConservesChips | Backend/server.js:77-103 | pot plus stacks after a new hand equals the stacks before: any old pot is overwritten and the blinds move into the new one |
| HoldemProps.StartHandHoleCards | Backend/server.js:84-85 | the blinds do not touch the hands, the cards dealt are the hole cards, and the deck is the shuffled deck minus its top 2n cards |
| HoldemProps.DealPopsInOrder | Backend/server.js:84-85 | the hole cards read seat by seat are the top 2n cards of the deck read from the top |
| HoldemProps.StartHandStack | Backend/server.js:76-90 | the deck that is left followed by the dealt cards pushed back in reverse order is the shuffled deck itself |
| HoldemProps.NewHandHoldsEveryCardOnce | Backend/server.js:41-47 | after a new hand, the deck plus every dealt card holds each of the 52 cards exactly once |
| Holdem.FindSeat | Backend/server.js:157 | `findIndex`: -1 if no seat has the socket id, otherwise a seat with that id and no earlier seat with it |
| HoldemProps.OnlyActiveSeatActs | Backend/server.js:157-158 | an action from any socket that is not the active seat's leaves the state completely unchanged |
| Server.Game.Act | Backend/server.js:160-181 | the action's chip movement: the new state is `Commit` of the old one |
| HoldemProps.CommitConservesChips | Backend/server.js:162-181 | every action keeps pot plus stacks |
| HoldemProps.CallCommitsAtMostStack | Backend/server.js:164-169 | a call commits `min(owed, stack)`: the stack stays non-negative, the bet and the pot grow by that amount, the fold flag and table bet stay, and every other seat is unchanged |
| HoldemProps.RaiseNeedsStack | Backend/server.js:170-178 | if the stack covers the raise, it moves exactly `total - currentBet` into the pot and sets both the player's and the table's bet to `total`; otherwise the state is unchanged |
| HoldemProps.RejectedRaiseIsCheck | Backend/server.js:170-191 | a raise the stack cannot cover has the same whole effect as a check, turn advance included |
| Server.Game.AdvanceTurn | Backend/server.js:183-208 | the `loopSafety` loop and the round test leave exactly `AfterAction` of the state |
| Server.Game.HandlePlayerAction | Backend/server.js:156-209 | leaves exactly `HandleAction` of the old state |
| HoldemProps.NextActorWalks | Backend/server.js:184-191 | the turn search stops at most 10 steps clockwise. Every seat passed is folded or all-in, and it stops on such a seat only when the 10 steps run out |
| HoldemProps.NextActorFindsWithin | Backend/server.js:184-191 | if the remaining steps cover the table and some seat is eligible, the search stops at the first eligible seat clockwise |
| HoldemProps.NextActorIsFirstEligible | Backend/server.js:184-191 | at a table of at most 11 seats with an eligible seat, the next actor is eligible and every seat before it is folded or all-in |
| HoldemProps.RoundEndsExactlyWhenMatched | Backend/server.js:193-201 | during betting, the phase advances, with the table bet reset, exactly when every eligible bet matches and either the next seat is dealer + 1 or fewer than 2 seats are eligible. Otherwise only the turn index moves, to the seat found |
| Server.Game.NextPhase | Backend/server.js:116-154 | leaves exactly `Holdem.NextPhase` of the old state |
| Server.Game.CollectBets | Backend/server.js:120 | every player's bet becomes 0 and nothing else changes |
| Server.Game.DealFlop | Backend/server.js:124-125 | the board becomes the three cards popped, in pop order, and the deck loses them |
| Server.Game.DealStreet | Backend/server.js:126-131 | the top card of the deck moves onto the end of the board |
| Server.Game.ResolveShowdown | Backend/server.js:132-143 | leaves exactly `Settle` of the state: the winners paid, the pot emptied |
| Server.Game.PayWinners | Backend/server.js:137-141 | the payout loop leaves the players of `Payout`: each winner, found by id, is credited and marked winner |
| Server.Game.ReopenBetting | Backend/server.js:149-152 | the while loop stops at the first unfolded seat from dealer + 1 |
| Holdem.LiveOffset | Backend/server.js:149-152 | the search offset: every seat it passes has folded, and the seat it stops at, if within the table, has not |
| Holdem.LiveOffsetFinds | Backend/server.js:150-152 | if anyone is unfolded, the reopening loop ends within one lap |
| HoldemProps.NextPhaseResetsBets | Backend/server.js:116-133 | exactly one phase forward, every bet and the table bet 0, the dealer kept, and every player's fold, all-in flag, hand and id kept |
| HoldemProps.NextPhaseDealsBoard | Backend/server.js:123-131 | pre-flop to flop: the board becomes the top three cards in pop order. Flop to turn and turn to river: one more card on the end. The deck loses exactly those cards; the other phases deal nothing |
| HoldemProps.NextPhaseFirstActor | Backend/server.js:148-152 | outside the river, betting reopens at the first unfolded seat at or after dealer + 1 |
| HoldemProps.SettleWinner | Backend/server.js:134-143 | the payout credits the whole pot and the winner flag to the first seat holding the drawn winner's id and empties the pot. With distinct ids that seat holds exactly the player `determineWinners` drew, who is unfolded |
| HoldemProps.RiverWinner | Backend/server.js:132-143 | river to showdown in one equation: bets collected, phase showdown, table bet 0, the whole pot awarded to the first seat holding the drawn winner's id, pot 0. With distinct ids that seat holds the player drawn from the table with the bets collected, who is unfolded |
| HoldemProps.ShowdownPaysOneWinner | Backend/server.js:132-143 | with distinct ids: the unfolded player `determineWinners` draws gains exactly the pot and is marked winner. Every other stack is unchanged, the pot is 0 and the turn index stays |
| HoldemProps.AnyLiveSeatCanBePaid | Backend/server.js:132-141 | conversely, with distinct ids, every unfolded seat is the one paid the whole pot and marked winner for some draw |
| HoldemProps.ShowdownConservesChips | Backend/server.js:132-143 | the showdown keeps pot plus stacks |
| HoldemProps.NextPhaseConservesChips | Backend/server.js:116-143 | every phase change keeps pot plus stacks |
| HoldemProps.PayoutKeepsSeats | Backend/server.js:137-141 | the payout changes only chips and winner flags, and keeps the number of players |
| Holdem.WinnersHaveIds | Backend/server.js:137-138 | every drawn winner is found again by id, so `p` is never undefined |
| Holdem.PayoutExtends | Backend/server.js:137-141 | paying one more winner awards the seat its id is found at, and leaves the ids unchanged |
| Holdem.FindById | Backend/server.js:138 | `find` by id: -1 exactly when the id is absent; otherwise the first seat with that id |
| Holdem.DetermineWinners | Backend/server.js:50-58 | at most one winner. The winner is a table player who has not folded, and there is one exactly when someone has not folded |
| HoldemProps.AnyLivePlayerCanWin | Backend/server.js:52-57 | conversely, every unfolded player is the winner for some draw |
| Holdem.Live | Backend/server.js:52 | the filter keeps exactly the unfolded players, each of them a table player |
| Holdem.Sanitize | Backend/server.js:62-70 | one public player per player, every field but the hand copied. At showdown and for humans each card is shown; otherwise each card becomes null, the same number of them as cards |
| HoldemProps.BroadcastHidesBotCards | Backend/server.js:64-69 | before the showdown, two tables that differ only in bots' hole cards (of the same number) have identical players projections |
| Holdem.Broadcast | Backend/server.js:72 | the emitted record: every field of the state, deck and board included, with the players replaced by their projection |
| HoldemProps.BroadcastExposesBotCards | Backend/server.js:64-72 | as written, before the showdown: the bots' hole cards, as a multiset, are the hand's card stack minus the broadcast deck, board and shown human cards |
| HoldemProps.OneBotHandExposed | Backend/server.js:64-72 | as written, at a table of one human and one bot: the bot's hand is the card stack minus what the broadcast shows |
| Holdem.PrivateBroadcast | Backend/server.js:62-72 | the corrected record: the same as the emitted one with the deck withheld |
| HoldemProps.PrivateBroadcastHidesBotCards | Backend/server.js:62-72 | with the deck withheld, two tables that differ only in the deck and in the bots' hole cards (of the same number) are broadcast identically before the showdown |
| HoldemProps.ShowdownBroadcastRevealsAll | Backend/server.js:65 | at the showdown the broadcast determines every player completely |
| Holdem.BotDecision | Backend/server.js:211-221 | the bot never raises. It checks exactly when nothing is owed, and folds exactly when something is owed and the draw says fold |
| Server.Game.BotPlay | Backend/server.js:211-222 | the bot's turn is `HandleAction` with the bot's socket and its decision |
| HoldemProps.BotTurnKeepsInvariant | Backend/server.js:211-222 | a bot turn keeps the invariant, pot plus stacks, and the card stack |
| HoldemProps.HandleActionConservesChips | Backend/server.js:156-209 | every call of the action handler keeps pot plus stacks |
| HoldemProps.StartHandInPlay | Backend/server.js:75-106 | a new hand at a table of 1 to 11 players with distinct ids starts in the invariant `InPlay` |
| HoldemProps.CommitKeepsTable | Backend/server.js:160-181 | an action's chip movement keeps the table shape and every hand |
| HoldemProps.NextPhaseInPlay | Backend/server.js:116-154 | a phase change from a table in shape lands in `InPlay` |
| HoldemProps.TurnPassesInPlay | Backend/server.js:184-201 | when the round is not over, the turn passes to a seat that has not folded |
| HoldemProps.HandleActionInPlay | Backend/server.js:156-209 | every handled or ignored action keeps `InPlay`: the turn is on an unfolded seat while betting is open, the board follows the phase, and nobody is all-in |
| HoldemProps.FlopKeepsStack | Backend/server.js:123-125 | the flop moves three cards from the deck to the empty board without changing the card stack |
| HoldemProps.StreetKeepsStack | Backend/server.js:126-131 | the turn and the river move one card without changing the card stack |
| HoldemProps.NextPhaseKeepsStack | Backend/server.js:116-143 | no phase change creates, loses or reorders a card |
| HoldemProps.HandleActionKeepsStack | Backend/server.js:156-209 | no action creates, loses or reorders a card |
| HoldemProps.HeadsUpBlinds | Backend/server.js:93-106 | heads up, the button is the big blind and the small blind acts first, with bets 10 and 20 and pot 30 |
| HoldemProps.HeadsUpCall | Backend/server.js:164-201 | heads up pre-flop, the small blind's call adds 10 to the pot, matches both bets at 20 and passes the turn to the big blind |
| HoldemProps.HeadsUpCheck | Backend/server.js:179-199 | when the big blind then checks, the round closes: the flop is dealt (3 cards), the pot is kept, the table bet is 0 and the small blind acts first |

## Left out

- Transport: the Express and socket.io wiring, `io.emit` and the connection, action and
  restart handlers (Backend/server.js:1-21, 226-261). They are I/O. `broadcastState` is
  modelled by the record it emits (`Broadcast`); the sending itself is left out.
- The join handler (Backend/server.js:229-244) is not modelled. The model takes any list
  of players. Where a property needs player ids to be distinct (ids 0 to 5, as the join
  handler hands them out), it says so in a precondition.
- `message`: the display strings are not part of the model.
- `setTimeout` scheduling of bot turns (Backend/server.js:111-113, 203-206): a bot turn is
  the explicit call `Server.Game.BotPlay`.
- The distribution of `Math.random`: the shuffle, the winner draw and the bot's coin are
  parameters, and the properties hold for every value.
- Cards.CreateDeck: the random comparator is modelled as the permutation the sort applies.
  Which permutations a JavaScript sort can produce, and how likely they are, is not modelled.
- HoldemProps.NextActorIsFirstEligible: stated for tables of at most 11 seats. At larger
  tables the 10-step `loopSafety` bound can stop early on a folded seat; `NextActorWalks`
  states that case.
- HoldemProps.Table: the invariant assumes at most 11 seats, for the same reason.
- HoldemProps.ShowdownPaysOneWinner: requires distinct player ids. With duplicate ids
  `find` credits the first seat that holds the winner's id, which can be an earlier seat
  than the winner's own. `SettleWinner` and `RiverWinner` state that general case: the
  paid seat is `FindById` of the drawn winner's id.
- Server.Game.NextPhase: requires someone unfolded, because the source hangs or reads
  `winners[0].name` of an empty list otherwise. For the same reason HandleAction and
  BotPlay require that the action does not fold the last unfolded player.
- Server.Game.StartNewHand: requires at least one player and at most 26. With none the
  modulo is undefined. With more the deck runs out and the source deals `undefined`
  cards, which the model does not represent. The join handler seats 6.
- Server.Game.HandlePlayerAction: requires `Ready`, which includes `DeckSuffices`: the
  deck holds the cards the next phase change pops. At most 23 players never run it short;
  for at most 11, the invariant `HoldemProps.Table` proves it. At 24 to 26 players the
  source deals `undefined` board cards, and the actions that would do so are outside the
  model; the same holds for `Server.Game.NextPhase` and
  `Server.Game.BotPlay`.
- Holdem.Commit: bets and stacks are integers. The source takes `data.amount` unchecked
  and computes on JavaScript numbers. The following are not represented:
  - a fractional amount;
  - a numeric string, whose subtraction moves chips while the bet becomes the string;
  - `null`, which counts as 0 in the subtraction but is stored as both bets;
  - magnitudes past 2^53, where rounding of doubles makes conservation inexact.

  A missing amount behaves like `Unknown`: the comparison with `NaN` fails and no chips
  move.
- The Frontend and `Backend/utils/logger.js` are not part of this model.

## Findings

| source | as written | input that shows it | evidently intended | confidence | as-written member | corrected member |
|---|---|---|---|---|---|---|
| Backend/server.js:62-72 | the players projection hides the bots' cards, but `io.emit` sends `{...gameState, players}`, deck included | any state before the showdown at a table of one human and one bot: the bot's two cards are the 52 cards minus the broadcast deck, board and human hand | rivals' cards stay hidden until the showdown, as the comment at line 63 says, so the deck is withheld (the client never reads it) | high, not executed | HoldemProps.OneBotHandExposed | HoldemProps.PrivateBroadcastHidesBotCards |
