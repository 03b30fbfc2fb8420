/**
 * The global `gameState` of Backend/server.js as an object whose methods update its
 * fields in place, with the loops of the source.  Each method is proved to leave the
 * state that the corresponding function of module Holdem describes.
 */
module Server {
  import opened Cards
  import opened Seats
  import opened Holdem

  class Game {
    var phase: Phase
    var pot: int
    var communityCards: seq<Card>
    var deck: seq<Card>
    var players: seq<Player>
    var activePlayerIndex: int
    var dealerIndex: int
    var currentBet: int
    var minRaise: int

    /** The current value of the record. */
    function State(): GameState
      reads this
    {
      GameState(phase, pot, communityCards, deck, players, activePlayerIndex, dealerIndex,
                currentBet, minRaise)
    }

    /** The initial `gameState`: lobby, no players, no turn. */
    constructor ()
      ensures State() == InitialState()
    {
      phase := Lobby;
      pot := 0;
      communityCards := [];
      deck := [];
      players := [];
      activePlayerIndex := -1;
      dealerIndex := 0;
      currentBet := 0;
      minRaise := InitialMinRaise;
    }

    /**
     * `startNewHand`: a new shuffled deck (the shuffle is the permutation `order`), the
     * reset-and-deal loop, the button move and the blinds.
     */
    method StartNewHand(order: seq<nat>)
      requires IsPermutation(order, DeckSize)
      requires CanStartHand(State())
      modifies this
      ensures State() == StartHand(old(State()), Shuffle(OrderedDeck(), order))
    {
      deck := CreateDeck(order);
      pot := SmallBlind + BigBlind;
      communityCards := [];
      phase := Preflop;
      currentBet := BigBlind;
      DealHands();

      var n := |players|;
      dealerIndex := Next(dealerIndex, n);
      var sbIndex := Next(dealerIndex, n);
      var bbIndex := Ahead(dealerIndex, 2, n);
      PostBlindAt(sbIndex, SmallBlind);
      PostBlindAt(bbIndex, BigBlind);
      activePlayerIndex := Next(bbIndex, n);
    }

    /** One blind: the seat's stack drops by `amount` and its bet becomes `amount`. */
    method PostBlindAt(seat: nat, amount: int)
      requires seat < |players|
      modifies this
      ensures State() == old(State()).(players := PostBlind(old(players), seat, amount))
    {
      players := players[seat := players[seat].(chips := players[seat].chips - amount)];
      players := players[seat := players[seat].(currentBet := amount)];
    }

    /** The `players.forEach` of `startNewHand`: each player pops two cards and is reset. */
    method DealHands()
      requires 2 * |players| <= |deck|
      modifies this
      ensures State() == old(State()).(players := Deal(old(players), old(deck)),
                                       deck := old(deck)[..|old(deck)| - 2 * |old(players)|])
    {
      ghost var shuffled := deck;
      ghost var before := players;
      ghost var fixed := State();
      var i := 0;
      while i < |players|
        invariant State() == fixed.(players := players, deck := deck)
        invariant 0 <= i <= |players| == |before|
        invariant deck == shuffled[..|shuffled| - 2 * i]
        invariant forall j :: 0 <= j < i ==> players[j] == Deal(before, shuffled)[j]
        invariant forall j :: i <= j < |players| ==> players[j] == before[j]
      {
        var first := deck[|deck| - 1];
        deck := deck[..|deck| - 1];
        var second := deck[|deck| - 1];
        deck := deck[..|deck| - 1];
        players := players[i := DealtPlayer(players[i], [first, second])];
        i := i + 1;
      }
      assert players == Deal(before, shuffled);
    }

    /**
     * `nextPhase`: collect the bets, then deal the board for the next street and reopen
     * betting, or at the river pay the winner.
     */
    method NextPhase(roll: nat)
      requires 1 <= |players| && 0 <= dealerIndex < |players|
      requires DeckSuffices(State()) && SomeoneLive(players)
      modifies this
      ensures State() == Holdem.NextPhase(old(State()), roll)
    {
      ResetKeepsFolds(players);
      CollectBets();
      currentBet := 0;

      match phase {
        case Preflop =>
          phase := Flop;
          DealFlop();
        case Flop =>
          phase := Turn;
          DealStreet();
        case Turn =>
          phase := River;
          DealStreet();
        case River =>
          phase := Showdown;
          ResolveShowdown(roll);
          return;
        case _ =>
      }
      ReopenBetting();
    }

    /** The flop: three pops, the first popped card first on the board. */
    method DealFlop()
      requires |deck| >= 3
      modifies this
      ensures var d := old(deck);
        State() == old(State()).(communityCards := [d[|d| - 1], d[|d| - 2], d[|d| - 3]],
                                 deck := d[..|d| - 3])
    {
      var first := deck[|deck| - 1];
      deck := deck[..|deck| - 1];
      var second := deck[|deck| - 1];
      deck := deck[..|deck| - 1];
      var third := deck[|deck| - 1];
      deck := deck[..|deck| - 1];
      communityCards := [first, second, third];
    }

    /** The turn or the river: one pop onto the end of the board. */
    method DealStreet()
      requires |deck| >= 1
      modifies this
      ensures var d := old(deck);
        State() == old(State()).(communityCards := old(communityCards) + [d[|d| - 1]],
                                 deck := d[..|d| - 1])
    {
      communityCards := communityCards + [deck[|deck| - 1]];
      deck := deck[..|deck| - 1];
    }

    /** The river branch: draw the winners, pay each `floor(pot / |winners|)`, empty the pot. */
    method ResolveShowdown(roll: nat)
      requires SomeoneLive(players)
      modifies this
      ensures State() == Settle(old(State()), roll)
    {
      var winners := DetermineWinners(players, roll);
      var winAmount := pot / |winners|;
      WinnersHaveIds(players, winners);
      PayWinners(winners, winAmount);
      pot := 0;
    }

    /** The `players.forEach(p => p.currentBet = 0)` of `nextPhase`. */
    method CollectBets()
      modifies this
      ensures State() == old(State()).(players := ResetBets(old(players)))
    {
      ghost var before := State();
      var i := 0;
      while i < |players|
        invariant State() == before.(players := players)
        invariant 0 <= i <= |players| == |before.players|
        invariant forall j :: 0 <= j < i ==> players[j] == before.players[j].(currentBet := 0)
        invariant forall j :: i <= j < |players| ==> players[j] == before.players[j]
      {
        players := players[i := players[i].(currentBet := 0)];
        i := i + 1;
      }
      assert players == ResetBets(before.players);
    }

    /** The `winners.forEach` of the showdown: credit each winner found by id. */
    method PayWinners(winners: seq<Player>, winAmount: int)
      requires forall k :: 0 <= k < |winners| ==> winners[k].id in Ids(players)
      modifies this
      ensures State() == old(State()).(players := Payout(old(players), winners, winAmount))
    {
      var table := players;
      ghost var initial := players;
      for k := 0 to |winners|
        modifies {}
        invariant table == Payout(initial, winners[..k], winAmount)
      {
        PayoutExtends(initial, winners, k, winAmount);
        var seat := FindById(table, winners[k].id);
        table := Award(table, seat, winAmount);
      }
      assert winners[..|winners|] == winners;
      players := table;
    }

    /** The end of `nextPhase`: the turn goes to the first unfolded seat from dealer + 1. */
    method ReopenBetting()
      requires 1 <= |players| && 0 <= dealerIndex < |players| && SomeoneLive(players)
      modifies this
      ensures State() == Reopen(old(State()))
    {
      var n := |players|;
      ghost var start := Next(dealerIndex, n);
      ghost var target := LiveOffset(players, start, 0);
      ghost var k := 0;
      LiveOffsetFinds(players, start);
      activePlayerIndex := (dealerIndex + 1) % n;
      ghost var reopened := State();
      while players[activePlayerIndex].hasFolded
        invariant State() == reopened.(activePlayerIndex := activePlayerIndex)
        invariant 0 <= k <= target < n
        invariant activePlayerIndex == Walk(start, k, n)
        decreases target - k
      {
        activePlayerIndex := (activePlayerIndex + 1) % n;
        WalkStep(start, k, n);
        k := k + 1;
      }
    }

    /**
     * `handlePlayerAction(socketId, action, amount)`: ignore a seat whose turn it is not,
     * apply the action, advance the turn and end the round when everyone has matched.
     */
    method HandlePlayerAction(socketId: string, action: Action, roll: nat)
      requires Ready(State())
      requires FindSeat(players, socketId) == activePlayerIndex ==>
                 SomeoneLive(Commit(State(), activePlayerIndex, action).players)
      modifies this
      ensures State() == HandleAction(old(State()), socketId, action, roll)
    {
      var playerIndex := FindSeat(players, socketId);
      if playerIndex != activePlayerIndex {
        return;
      }
      Act(playerIndex, action);
      AdvanceTurn(roll);
    }

    /** The second part of the handler: the `loopSafety` search and the end-of-round test. */
    method AdvanceTurn(roll: nat)
      requires Ready(State()) && SomeoneLive(players)
      modifies this
      ensures State() == AfterAction(old(State()), roll)
    {
      var n := |players|;
      var nextIndex := (activePlayerIndex + 1) % n;
      var loopSafety := 0;
      ghost var acted := State();
      while (players[nextIndex].hasFolded || players[nextIndex].isAllIn) && loopSafety < MaxSkips
        invariant State() == acted
        invariant 0 <= nextIndex < n && loopSafety <= MaxSkips
        invariant NextActor(players, nextIndex, loopSafety)
               == NextActor(players, Next(activePlayerIndex, n), 0)
        decreases MaxSkips - loopSafety
      {
        nextIndex := (nextIndex + 1) % n;
        loopSafety := loopSafety + 1;
      }

      var allMatched := AllMatched(players, currentBet);
      var eligible := EligibleCount(players);
      if allMatched && (nextIndex == Next(dealerIndex, n) || eligible < 2) {
        NextPhase(roll);
      } else {
        activePlayerIndex := nextIndex;
      }
    }

    /** The first part of the handler: the chip movement of the action of seat `playerIndex`. */
    method Act(playerIndex: nat, action: Action)
      requires playerIndex < |players|
      modifies this
      ensures State() == Commit(old(State()), playerIndex, action)
    {
      var player := players[playerIndex];
      match action {
        case Fold =>
          players := players[playerIndex := player.(hasFolded := true)];
        case Call =>
          var toCall := currentBet - player.currentBet;
          var actualBet := Min(toCall, player.chips);
          players := players[playerIndex := player.(chips := player.chips - actualBet,
                                                    currentBet := player.currentBet + actualBet)];
          pot := pot + actualBet;
        case Raise(totalBet) =>
          var added := totalBet - player.currentBet;
          if player.chips >= added {
            players := players[playerIndex := player.(chips := player.chips - added,
                                                      currentBet := totalBet)];
            pot := pot + added;
            currentBet := totalBet;
          }
        case Check =>
        case Unknown =>
      }

    }

    /**
     * `botPlay(index)`: the bot at `index` checks when nothing is owed and otherwise calls
     * or folds, through the same handler as a human.  `callDraw` is `Math.random() > 0.2`.
     */
    method BotPlay(index: nat, callDraw: bool, roll: nat)
      requires Ready(State()) && index < |players|
      requires FindSeat(players, players[index].socketId) == activePlayerIndex ==>
                 SomeoneLive(Commit(State(), activePlayerIndex,
                                    BotDecision(State(), index, callDraw)).players)
      modifies this
      ensures State() == HandleAction(old(State()), old(players[index].socketId),
                                      BotDecision(old(State()), index, callDraw), roll)
    {
      var bot := players[index];
      var toCall := currentBet - bot.currentBet;
      if toCall > 0 {
        if callDraw {
          HandlePlayerAction(bot.socketId, Call, roll);
        } else {
          HandlePlayerAction(bot.socketId, Fold, roll);
        }
      } else {
        HandlePlayerAction(bot.socketId, Check, roll);
      }
    }
  }
}
