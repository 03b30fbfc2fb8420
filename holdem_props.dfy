/**
 * What the engine of module Holdem guarantees: chip conservation, the hand set-up,
 * the rules of each action, the turn order, the phase progression and the payout,
 * and an invariant of every state reached during a hand.
 */
module HoldemProps {
  import opened Cards
  import opened Seats
  import opened Holdem

  // ================================================================ sums and hands

  lemma {:induction false} SumUpdate(ps: seq<Player>, i: nat, p: Player)
    requires i < |ps|
    ensures SumChips(ps[i := p]) == SumChips(ps) - ps[i].chips + p.chips
  {
    if i == 0 {
      assert ps[i := p][1..] == ps[1..];
    } else {
      SumUpdate(ps[1..], i - 1, p);
      assert ps[i := p][1..] == ps[1..][i - 1 := p];
    }
  }

  lemma {:induction false} SumSameChips(ps: seq<Player>, qs: seq<Player>)
    requires |ps| == |qs|
    requires forall i :: 0 <= i < |ps| ==> ps[i].chips == qs[i].chips
    ensures SumChips(ps) == SumChips(qs)
  {
    if ps != [] {
      SumSameChips(ps[1..], qs[1..]);
    }
  }

  lemma {:induction false} SameHands(ps: seq<Player>, qs: seq<Player>)
    requires |ps| == |qs|
    requires forall i :: 0 <= i < |ps| ==> ps[i].hand == qs[i].hand
    ensures HandsOf(ps) == HandsOf(qs)
  {
    if ps != [] {
      SameHands(ps[1..], qs[1..]);
    }
  }

  lemma ReversedAppend(a: seq<Card>, b: seq<Card>)
    ensures Reversed(a + b) == Reversed(b) + Reversed(a)
  {
    assert forall i :: 0 <= i < |a + b| ==> Reversed(a + b)[i] == (Reversed(b) + Reversed(a))[i];
  }

  /**
   * The reset loop pops the hole cards in order: seat 0 gets the top two cards, seat 1
   * the next two, and so on, so that the hands read in seat order are the top of the
   * deck read from the top.
   */
  lemma {:induction false} DealPopsInOrder(ps: seq<Player>, d: seq<Card>)
    requires 2 * |ps| <= |d|
    ensures HandsOf(Deal(ps, d)) == Reversed(d[|d| - 2 * |ps|..])
    decreases |ps|
  {
    var m, n := |d|, |ps|;
    if ps == [] {
      assert Deal(ps, d) == [];
    } else {
      var rest := d[..m - 2];
      DealRest(ps, d);
      DealPopsInOrder(ps[1..], rest);
      var top := d[m - 2 * n..];
      assert rest[|rest| - 2 * (n - 1)..] == top[..|top| - 2];
      ReversedPopTwo(top);
    }
  }

  /** After the first seat's two pops, the loop deals the rest of the table from what is left. */
  lemma DealRest(ps: seq<Player>, d: seq<Card>)
    requires 1 <= |ps| && 2 * |ps| <= |d|
    ensures Deal(ps, d)[0].hand == [d[|d| - 1], d[|d| - 2]]
    ensures Deal(ps, d)[1..] == Deal(ps[1..], d[..|d| - 2])
  {
  }

  lemma ReversedPopTwo(s: seq<Card>)
    requires |s| >= 2
    ensures Reversed(s) == [s[|s| - 1], s[|s| - 2]] + Reversed(s[..|s| - 2])
  {
  }

  // ================================================================ startNewHand

  /**
   * A new hand: pot of both blinds, table bet of the big blind, pre-flop with an empty
   * board, every player reset and holding two cards, 2 cards per player gone from the deck.
   */
  lemma StartHandResets(g: GameState, shuffled: seq<Card>)
    requires CanStartHand(g) && |shuffled| == DeckSize
    ensures var h := StartHand(g, shuffled);
      && h.pot == SmallBlind + BigBlind
      && h.currentBet == BigBlind
      && h.phase == Preflop
      && h.communityCards == []
      && |h.deck| == DeckSize - 2 * |g.players|
      && |h.players| == |g.players|
      && forall i :: 0 <= i < |h.players| ==>
           && !h.players[i].hasFolded && !h.players[i].isAllIn && !h.players[i].isWinner
           && |h.players[i].hand| == 2
           && h.players[i].id == g.players[i].id
           && h.players[i].socketId == g.players[i].socketId
           && h.players[i].isHuman == g.players[i].isHuman
  {
    var h, n := StartHand(g, shuffled), |g.players|;
    var dealt := Deal(g.players, shuffled);
    var dealer := Next(g.dealerIndex, n);
    var small := PostBlind(dealt, Next(dealer, n), SmallBlind);
    assert h.players == PostBlind(small, Ahead(dealer, 2, n), BigBlind);
    forall i | 0 <= i < n
      ensures h.players[i] == dealt[i].(chips := h.players[i].chips,
                                        currentBet := h.players[i].currentBet)
    {
    }
  }

  /**
   * The button moves one seat; the blinds are the next two seats and the first actor the
   * one after.  Only the blind seats lose chips, by exactly the blind, and only they have
   * a bet (at one player both blinds fall on the same seat).
   */
  lemma StartHandBlinds(g: GameState, shuffled: seq<Card>)
    requires CanStartHand(g) && |shuffled| == DeckSize
    ensures var h, n := StartHand(g, shuffled), |g.players|;
      var sb, bb := Walk(h.dealerIndex, 1, n), Walk(h.dealerIndex, 2, n);
      && h.dealerIndex == Walk(g.dealerIndex, 1, n)
      && h.activePlayerIndex == Walk(h.dealerIndex, 3, n)
      && forall i :: 0 <= i < n ==>
           && h.players[i].chips == g.players[i].chips - (if i == sb then SmallBlind else 0)
                                                       - (if i == bb then BigBlind else 0)
           && h.players[i].currentBet == (if i == bb then BigBlind
                                          else if i == sb then SmallBlind else 0)
  {
    var h, n := StartHand(g, shuffled), |g.players|;
    TwoAhead(h.dealerIndex, n);
    WalkStep(h.dealerIndex, 2, n);
    var dealt := Deal(g.players, shuffled);
    var small := PostBlind(dealt, Next(h.dealerIndex, n), SmallBlind);
    assert h.players == PostBlind(small, Ahead(h.dealerIndex, 2, n), BigBlind);
    forall i | 0 <= i < n ensures dealt[i].chips == g.players[i].chips && dealt[i].currentBet == 0 {
    }
  }

  /** Chips are conserved by a new hand: the blinds move into a pot that replaces the old one. */
  lemma StartHandConservesChips(g: GameState, shuffled: seq<Card>)
    requires CanStartHand(g) && |shuffled| == DeckSize
    ensures Total(StartHand(g, shuffled)) == SumChips(g.players)
  {
    var n := |g.players|;
    var dealt := Deal(g.players, shuffled);
    SumSameChips(dealt, g.players);
    var dealer := Next(g.dealerIndex, n);
    var sb, bb := Next(dealer, n), Ahead(dealer, 2, n);
    var small := PostBlind(dealt, sb, SmallBlind);
    SumUpdate(dealt, sb, small[sb]);
    SumUpdate(small, bb, PostBlind(small, bb, BigBlind)[bb]);
  }

  /** The blinds touch stacks and bets only: the new hand's hole cards are those dealt. */
  lemma StartHandHoleCards(g: GameState, shuffled: seq<Card>)
    requires CanStartHand(g) && |shuffled| == DeckSize
    ensures HandsOf(StartHand(g, shuffled).players) == HandsOf(Deal(g.players, shuffled))
    ensures Dealt(StartHand(g, shuffled)) == HandsOf(Deal(g.players, shuffled))
    ensures StartHand(g, shuffled).deck == shuffled[..|shuffled| - 2 * |g.players|]
  {
    var n := |g.players|;
    var dealt := Deal(g.players, shuffled);
    var dealer := Next(g.dealerIndex, n);
    var small := PostBlind(dealt, Next(dealer, n), SmallBlind);
    var big := PostBlind(small, Ahead(dealer, 2, n), BigBlind);
    assert StartHand(g, shuffled).players == big;
    SameHands(small, dealt);
    SameHands(big, small);
  }

  /**
   * Every card of a new hand came off the shuffled deck in order: the deck that is left
   * followed by the hole cards pushed back is the shuffled deck itself.
   */
  lemma StartHandStack(g: GameState, shuffled: seq<Card>)
    requires CanStartHand(g) && |shuffled| == DeckSize
    ensures Stack(StartHand(g, shuffled)) == shuffled
  {
    var h, n := StartHand(g, shuffled), |g.players|;
    StartHandHoleCards(g, shuffled);
    DealPopsInOrder(g.players, shuffled);
    PoppedFrom(h, shuffled, |shuffled| - 2 * n);
  }

  /** A state whose deck is the bottom of `s` and whose dealt cards are the rest, top first. */
  lemma PoppedFrom(h: GameState, s: seq<Card>, k: nat)
    requires k <= |s| && h.deck == s[..k] && Dealt(h) == Reversed(s[k..])
    ensures Stack(h) == s
  {
    assert Reversed(Reversed(s[k..])) == s[k..];
    assert s == s[..k] + s[k..];
  }

  /**
   * With the deck shuffled by a permutation, the deck, the hole cards and the board of a
   * new hand hold each of the 52 cards exactly once.
   */
  lemma NewHandHoldsEveryCardOnce(g: GameState, order: seq<nat>)
    requires CanStartHand(g) && IsPermutation(order, DeckSize)
    ensures var cards := Stack(StartHand(g, Shuffle(OrderedDeck(), order)));
      |cards| == DeckSize && Distinct(cards) && forall c: Card :: c in cards
  {
    ShuffleIsPermutation(OrderedDeck(), order);
    StartHandStack(g, Shuffle(OrderedDeck(), order));
  }

  // ================================================================ handlePlayerAction

  /** A seat other than the one whose turn it is cannot change anything. */
  lemma OnlyActiveSeatActs(g: GameState, socketId: string, action: Action, roll: nat)
    requires Ready(g)
    requires FindSeat(g.players, socketId) != g.activePlayerIndex
    ensures HandleAction(g, socketId, action, roll) == g
  {
  }

  /** Every action keeps the chips of the table: pot plus stacks. */
  lemma CommitConservesChips(g: GameState, seat: nat, action: Action)
    requires seat < |g.players|
    ensures Total(Commit(g, seat, action)) == Total(g)
  {
    var c := Commit(g, seat, action);
    if c.players != g.players {
      assert c.players == g.players[seat := c.players[seat]];
      SumUpdate(g.players, seat, c.players[seat]);
    }
  }

  /**
   * A call commits `min(currentBet - player.currentBet, chips)`: the stack never ends
   * negative, the pot grows by what the player's bet grows, nothing else changes.
   */
  lemma CallCommitsAtMostStack(g: GameState, seat: nat)
    requires seat < |g.players|
    ensures var c, p := Commit(g, seat, Call), g.players[seat];
      var moved := Min(g.currentBet - p.currentBet, p.chips);
      && |c.players| == |g.players|
      && c.players[seat].chips == p.chips - moved >= 0
      && c.players[seat].currentBet == p.currentBet + moved
      && c.pot == g.pot + moved
      && c.currentBet == g.currentBet
      && c.players[seat].hasFolded == p.hasFolded
      && forall i :: 0 <= i < |g.players| && i != seat ==> c.players[i] == g.players[i]
  {
  }

  /**
   * A raise to `total` moves chips only when the stack covers `total - currentBet`; then
   * the player's bet and the table bet both become `total`.  No minimum is enforced.
   */
  lemma RaiseNeedsStack(g: GameState, seat: nat, total: int)
    requires seat < |g.players|
    ensures var c, p := Commit(g, seat, Raise(total)), g.players[seat];
      var added := total - p.currentBet;
      if p.chips >= added then
        && c.players == g.players[seat := p.(chips := p.chips - added, currentBet := total)]
        && c.pot == g.pot + added
        && c.currentBet == total
      else c == g
  {
  }

  /** A raise the stack cannot cover still passes the turn on, exactly like a check. */
  lemma RejectedRaiseIsCheck(g: GameState, socketId: string, total: int, roll: nat)
    requires Ready(g)
    requires FindSeat(g.players, socketId) == g.activePlayerIndex ==> SomeoneLive(g.players)
    requires g.players[g.activePlayerIndex].chips
               < total - g.players[g.activePlayerIndex].currentBet
    ensures HandleAction(g, socketId, Raise(total), roll) == HandleAction(g, socketId, Check, roll)
  {
  }

  // ================================================================ turn advance

  /**
   * The `loopSafety` search: the seat found is `d <= 10` steps clockwise from the start,
   * every seat passed on the way is folded or all-in, and it is folded or all-in itself
   * only when the 10 steps ran out.
   */
  lemma {:induction false} NextActorWalks(ps: seq<Player>, idx: nat, safety: nat)
    returns (d: nat)
    requires idx < |ps| && safety <= MaxSkips
    ensures d <= MaxSkips - safety
    ensures NextActor(ps, idx, safety) == Walk(idx, d, |ps|)
    ensures forall j :: 0 <= j < d ==> !Eligible(ps[Walk(idx, j, |ps|)])
    ensures d < MaxSkips - safety ==> Eligible(ps[NextActor(ps, idx, safety)])
    decreases MaxSkips - safety
  {
    if !Eligible(ps[idx]) && safety < MaxSkips {
      var next := Next(idx, |ps|);
      var d' := NextActorWalks(ps, next, safety + 1);
      d := d' + 1;
      forall j | 0 <= j < d ensures !Eligible(ps[Walk(idx, j, |ps|)]) {
        if j > 0 {
          assert Walk(idx, j, |ps|) == Walk(next, j - 1, |ps|);
        }
      }
    } else {
      d := 0;
    }
  }

  /** Distinct offsets within one lap reach distinct seats. */
  lemma WalkOneLap(start: nat, j: nat, k: nat, n: nat)
    requires start < n && j < n && k < n && j != k
    ensures Walk(start, j, n) != Walk(start, k, n)
  {
    WalkOffset(start, j, n);
    WalkOffset(start, k, n);
  }

  /** A search that passes only folded or all-in seats cannot pass an eligible one. */
  lemma StopsAtOrBefore(ps: seq<Player>, idx: nat, d: nat, k: nat)
    requires idx < |ps|
    requires forall j :: 0 <= j < d ==> !Eligible(ps[Walk(idx, j, |ps|)])
    requires Eligible(ps[Walk(idx, k, |ps|)])
    ensures d <= k
  {
  }

  /**
   * When the search has at least as many steps left as the table has seats, and some
   * seat is neither folded nor all-in, it stops at the first such seat clockwise.
   */
  lemma NextActorFindsWithin(ps: seq<Player>, idx: nat, safety: nat, e: nat)
    requires idx < |ps| && safety <= MaxSkips && |ps| <= MaxSkips - safety + 1
    requires e < |ps| && Eligible(ps[e])
    ensures Eligible(ps[NextActor(ps, idx, safety)])
    ensures forall j :: 0 <= j < Distance(idx, NextActor(ps, idx, safety), |ps|) ==>
              !Eligible(ps[Walk(idx, j, |ps|)])
  {
    var n := |ps|;
    var d := NextActorWalks(ps, idx, safety);
    var k := Distance(idx, e, n);
    StopsAtOrBefore(ps, idx, d, k);
    var r := NextActor(ps, idx, safety);
    assert d <= k < n;
    if d == MaxSkips - safety {
      assert k == d;
      assert r == Walk(idx, k, n) == e;
    }
    var dist := Distance(idx, r, n);
    if dist != d {
      WalkOneLap(idx, dist, d, n);
    }
    assert dist == d;
  }

  /**
   * At a table of at most 11 seats the 10-step search covers every seat, so if any seat
   * is neither folded nor all-in the turn goes to the first such seat clockwise.
   */
  lemma NextActorIsFirstEligible(ps: seq<Player>, idx: nat, e: nat)
    requires idx < |ps| <= MaxSkips + 1
    requires e < |ps| && Eligible(ps[e])
    ensures Eligible(ps[NextActor(ps, idx, 0)])
    ensures forall j :: 0 <= j < Distance(idx, NextActor(ps, idx, 0), |ps|) ==>
              !Eligible(ps[Walk(idx, j, |ps|)])
  {
    NextActorFindsWithin(ps, idx, 0, e);
  }

  // ================================================================ nextPhase

  /** The phase `nextPhase` moves to. */
  function PhaseAfter(p: Phase): Phase {
    match p
    case Preflop => Flop
    case Flop => Turn
    case Turn => River
    case River => Showdown
    case Showdown => Showdown
    case Lobby => Lobby
  }

  /** Betting is open in these phases. */
  predicate Betting(p: Phase) {
    p == Preflop || p == Flop || p == Turn || p == River
  }

  /** The number of board cards each phase shows. */
  function BoardSize(p: Phase): nat {
    match p
    case Lobby => 0
    case Preflop => 0
    case Flop => 3
    case Turn => 4
    case River => 5
    case Showdown => 5
  }

  predicate CanAdvancePhase(g: GameState) {
    1 <= |g.players| && 0 <= g.dealerIndex < |g.players| && DeckSuffices(g) && SomeoneLive(g.players)
  }

  /** The payout forEach changes only chips and `isWinner`. */
  lemma {:induction false} PayoutKeepsSeats(ps: seq<Player>, winners: seq<Player>, amount: int)
    requires forall k :: 0 <= k < |winners| ==> winners[k].id in Ids(ps)
    ensures var q := Payout(ps, winners, amount);
      && |q| == |ps|
      && forall i :: 0 <= i < |ps| ==>
           q[i] == ps[i].(chips := q[i].chips, isWinner := q[i].isWinner)
    decreases |winners|
  {
    if winners != [] {
      var ps' := Credit(ps, winners[0], amount);
      assert Ids(ps') == Ids(ps);
      PayoutKeepsSeats(ps', winners[1..], amount);
    }
  }

  /**
   * `nextPhase` collects every bet, advances exactly one phase and keeps every player's
   * fold, all-in flag, hand and identity.
   */
  lemma NextPhaseResetsBets(g: GameState, roll: nat)
    requires CanAdvancePhase(g)
    ensures var h := NextPhase(g, roll);
      && h.phase == PhaseAfter(g.phase)
      && h.currentBet == 0
      && h.dealerIndex == g.dealerIndex
      && |h.players| == |g.players|
      && forall i :: 0 <= i < |g.players| ==>
           && h.players[i].currentBet == 0
           && h.players[i].hasFolded == g.players[i].hasFolded
           && h.players[i].isAllIn == g.players[i].isAllIn
           && h.players[i].hand == g.players[i].hand
           && h.players[i].id == g.players[i].id
  {
    if g.phase == River {
      ResetKeepsFolds(g.players);
      var reset := ResetBets(g.players);
      var winners := DetermineWinners(reset, roll);
      forall k | 0 <= k < |winners| ensures winners[k].id in Ids(reset) {
        var i :| 0 <= i < |reset| && reset[i] == winners[k];
        assert Ids(reset)[i] == winners[k].id;
      }
      PayoutKeepsSeats(reset, winners, g.pot / |winners|);
    }
  }

  /**
   * The board: the flop is the three cards popped off the deck, turn and river one more
   * each, and the showdown deals nothing; the deck loses exactly the cards dealt.
   */
  lemma NextPhaseDealsBoard(g: GameState, roll: nat)
    requires CanAdvancePhase(g)
    ensures var h, d := NextPhase(g, roll), g.deck;
      match g.phase
      case Preflop =>
        h.communityCards == [d[|d| - 1], d[|d| - 2], d[|d| - 3]] && h.deck == d[..|d| - 3]
      case Flop =>
        h.communityCards == g.communityCards + [d[|d| - 1]] && h.deck == d[..|d| - 1]
      case Turn =>
        h.communityCards == g.communityCards + [d[|d| - 1]] && h.deck == d[..|d| - 1]
      case _ =>
        h.communityCards == g.communityCards && h.deck == d
  {
    if g.phase == River {
      ResetKeepsFolds(g.players);
    }
  }

  /**
   * Except at the river, betting reopens at the first seat from dealer + 1 (inclusive)
   * that has not folded.
   */
  lemma NextPhaseFirstActor(g: GameState, roll: nat)
    requires CanAdvancePhase(g) && g.phase != River
    ensures var h, n := NextPhase(g, roll), |g.players|;
      var start := Next(g.dealerIndex, n);
      && 0 <= h.activePlayerIndex < n
      && !g.players[h.activePlayerIndex].hasFolded
      && forall j :: 0 <= j < Distance(start, h.activePlayerIndex, n) ==>
           g.players[Walk(start, j, n)].hasFolded
  {
    var h, n := NextPhase(g, roll), |g.players|;
    var start := Next(g.dealerIndex, n);
    var ps := ResetBets(g.players);
    ResetKeepsFolds(g.players);
    LiveOffsetFinds(ps, start);
    var k := LiveOffset(ps, start, 0);
    assert h.activePlayerIndex == Walk(start, k, n);
    var dist := Distance(start, h.activePlayerIndex, n);
    if dist != k {
      WalkOneLap(start, dist, k, n);
    }
    forall j | 0 <= j < dist ensures g.players[Walk(start, j, n)].hasFolded {
      assert ps[Walk(start, j, n)].hasFolded;
    }
  }

  /** The river branch of `nextPhase` is the payout applied to the reset table. */
  lemma RiverSettles(g: GameState, roll: nat)
    requires CanAdvancePhase(g) && g.phase == River
    ensures SomeoneLive(ResetBets(g.players))
    ensures NextPhase(g, roll)
         == Settle(g.(players := ResetBets(g.players), currentBet := 0, phase := Showdown), roll)
  {
    ResetKeepsFolds(g.players);
  }

  /**
   * The river branch in one equation: bets collected, showdown, the whole pot credited
   * to `w`, the first seat holding the id of the player drawn from the table with the bets
   * collected; when the ids are distinct, `w` is that player's own, unfolded seat.
   */
  lemma RiverWinner(g: GameState, roll: nat) returns (w: nat)
    requires CanAdvancePhase(g) && g.phase == River
    ensures w < |g.players|
    ensures SomeoneLive(ResetBets(g.players))
    ensures w == FindById(ResetBets(g.players), DetermineWinners(ResetBets(g.players), roll)[0].id)
    ensures Distinct(Ids(g.players)) ==>
              ResetBets(g.players)[w] == DetermineWinners(ResetBets(g.players), roll)[0]
    ensures Distinct(Ids(g.players)) ==> !g.players[w].hasFolded
    ensures NextPhase(g, roll)
         == g.(players := Award(ResetBets(g.players), w, g.pot), currentBet := 0,
               phase := Showdown, pot := 0)
  {
    RiverSettles(g, roll);
    w := SettleWinner(g.(players := ResetBets(g.players), currentBet := 0, phase := Showdown), roll);
    assert Ids(ResetBets(g.players)) == Ids(g.players);
  }

  /**
   * The payout of the river: `determineWinners` returns one player, so the whole pot,
   * `floor(pot / 1)`, goes to the first seat with the winner's id, which is the winner's
   * own, unfolded seat when the ids are distinct.
   */
  lemma SettleWinner(g: GameState, roll: nat) returns (w: nat)
    requires SomeoneLive(g.players)
    ensures w < |g.players|
    ensures w == FindById(g.players, DetermineWinners(g.players, roll)[0].id)
    ensures Distinct(Ids(g.players)) ==> g.players[w] == DetermineWinners(g.players, roll)[0]
    ensures Distinct(Ids(g.players)) ==> !g.players[w].hasFolded
    ensures Settle(g, roll) == g.(players := Award(g.players, w, g.pot), pot := 0)
  {
    var winners := DetermineWinners(g.players, roll);
    var winner := winners[0];
    var j :| 0 <= j < |g.players| && g.players[j] == winner;
    assert Ids(g.players)[j] == winner.id;
    assert winners == [winner];
    PayoutSingle(g.players, winner, g.pot);
    w := FindById(g.players, winner.id);
    if Distinct(Ids(g.players)) {
      assert Ids(g.players)[w] == winner.id == Ids(g.players)[j];
      DistinctAt(Ids(g.players), w, j);
    }
  }

  lemma DistinctAt<T>(s: seq<T>, a: nat, b: nat)
    requires Distinct(s) && a < |s| && b < |s| && s[a] == s[b]
    ensures a == b
  {
  }

  /**
   * River to showdown, with the distinct player ids the join handler hands out: the player
   * `determineWinners` draws, who has not folded, wins the whole pot and is marked winner;
   * every other stack is unchanged, the pot is emptied and the turn stays put.
   */
  lemma ShowdownPaysOneWinner(g: GameState, roll: nat)
    requires CanAdvancePhase(g) && g.phase == River && Distinct(Ids(g.players))
    ensures var h := NextPhase(g, roll);
      && |h.players| == |g.players|
      && h.pot == 0
      && h.activePlayerIndex == g.activePlayerIndex
      && SomeoneLive(ResetBets(g.players))
      && exists w :: 0 <= w < |g.players| && !g.players[w].hasFolded
           && ResetBets(g.players)[w] == DetermineWinners(ResetBets(g.players), roll)[0]
           && h.players[w].chips == g.players[w].chips + g.pot
           && h.players[w].isWinner
           && forall i :: 0 <= i < |g.players| && i != w ==> h.players[i].chips == g.players[i].chips
  {
    var w := RiverWinner(g, roll);
    var h, rp := NextPhase(g, roll), ResetBets(g.players);
    assert h.players == Award(rp, w, g.pot);
    assert h.players[w].chips == g.players[w].chips + g.pot;
    forall i | 0 <= i < |g.players| && i != w ensures h.players[i].chips == g.players[i].chips {
      assert h.players[i] == rp[i];
    }
  }

  lemma ShowdownConservesChips(g: GameState, roll: nat)
    requires CanAdvancePhase(g) && g.phase == River
    ensures Total(NextPhase(g, roll)) == Total(g)
  {
    var w := RiverWinner(g, roll);
    AwardConservesChips(g, w, NextPhase(g, roll));
  }

  /** Crediting the pot to one seat after collecting the bets keeps pot plus stacks. */
  lemma AwardConservesChips(g: GameState, w: nat, h: GameState)
    requires w < |g.players|
    requires h == g.(players := Award(ResetBets(g.players), w, g.pot), currentBet := 0,
                     phase := Showdown, pot := 0)
    ensures Total(h) == Total(g)
  {
    var rp := ResetBets(g.players);
    SumUpdate(rp, w, h.players[w]);
    SumSameChips(rp, g.players);
  }

  /** `nextPhase` moves no chips except from the pot to the winner. */
  lemma NextPhaseConservesChips(g: GameState, roll: nat)
    requires CanAdvancePhase(g)
    ensures Total(NextPhase(g, roll)) == Total(g)
  {
    if g.phase == River {
      ShowdownConservesChips(g, roll);
    } else {
      NextPhaseResetsBets(g, roll);
      var h := NextPhase(g, roll);
      assert h.pot == g.pot;
      SumSameChips(h.players, g.players);
    }
  }

  lemma SmallMod(a: nat, b: nat)
    requires a < b
    ensures a % b == a
  {
  }

  /** Any unfolded player can be the one `determineWinners` picks. */
  lemma AnyLivePlayerCanWin(ps: seq<Player>, i: nat)
    requires i < |ps| && !ps[i].hasFolded
    ensures exists roll: nat :: DetermineWinners(ps, roll) == [ps[i]]
  {
    var live := Live(ps);
    var k :| 0 <= k < |live| && live[k] == ps[i];
    SmallMod(k, |live|);
    assert DetermineWinners(ps, k) == [live[k]];
  }

  /**
   * Conversely, at the river every unfolded seat is the one paid for some draw: it gains
   * the whole pot and is marked winner.
   */
  lemma AnyLiveSeatCanBePaid(g: GameState, i: nat)
    requires CanAdvancePhase(g) && g.phase == River && Distinct(Ids(g.players))
    requires i < |g.players| && !g.players[i].hasFolded
    ensures exists roll: nat ::
      && |NextPhase(g, roll).players| == |g.players|
      && NextPhase(g, roll).players[i].chips == g.players[i].chips + g.pot
      && NextPhase(g, roll).players[i].isWinner
  {
    var rp := ResetBets(g.players);
    AnyLivePlayerCanWin(rp, i);
    var roll: nat :| DetermineWinners(rp, roll) == [rp[i]];
    var w := RiverWinner(g, roll);
    assert Ids(rp)[w] == rp[w].id == rp[i].id == Ids(rp)[i];
    assert Ids(rp) == Ids(g.players);
    DistinctAt(Ids(g.players), w, i);
    var h := NextPhase(g, roll);
    assert h.players == Award(rp, i, g.pot);
    assert h.players[i].chips == g.players[i].chips + g.pot && h.players[i].isWinner;
  }

  // ================================================================ whole actions

  /** Every call of `handlePlayerAction` keeps pot plus stacks. */
  lemma HandleActionConservesChips(g: GameState, socketId: string, action: Action, roll: nat)
    requires Ready(g)
    requires FindSeat(g.players, socketId) == g.activePlayerIndex ==>
               SomeoneLive(Commit(g, g.activePlayerIndex, action).players)
    ensures Total(HandleAction(g, socketId, action, roll)) == Total(g)
  {
    var seat := FindSeat(g.players, socketId);
    if seat == g.activePlayerIndex {
      var c := Commit(g, seat, action);
      CommitConservesChips(g, seat, action);
      var next := NextActor(c.players, Next(c.activePlayerIndex, |c.players|), 0);
      if RoundComplete(c, next) {
        NextPhaseConservesChips(c, roll);
      }
    }
  }

  /**
   * After an accepted action during betting, the phase moves on exactly when the round is
   * complete; otherwise only the turn index moves, to the seat the search found.
   */
  lemma RoundEndsExactlyWhenMatched(g: GameState, roll: nat)
    requires Ready(g) && SomeoneLive(g.players) && Betting(g.phase)
    ensures var next := NextActor(g.players, Next(g.activePlayerIndex, |g.players|), 0);
      var h := AfterAction(g, roll);
      && (h.phase != g.phase <==> RoundComplete(g, next))
      && (RoundComplete(g, next) ==> h.phase == PhaseAfter(g.phase) && h.currentBet == 0)
      && (!RoundComplete(g, next) ==> h == g.(activePlayerIndex := next))
  {
    var next := NextActor(g.players, Next(g.activePlayerIndex, |g.players|), 0);
    if RoundComplete(g, next) {
      NextPhaseResetsBets(g, roll);
    }
  }

  /** Two players between actions of the pre-flop round, seat `sb` to act, nobody folded. */
  predicate HeadsUpPreflop(h: GameState, sb: nat) {
    && |h.players| == 2 && sb < 2
    && h.phase == Preflop && |h.deck| >= 3
    && h.activePlayerIndex == sb && 0 <= h.dealerIndex < 2
    && h.players[0].socketId != h.players[1].socketId
    && !h.players[0].hasFolded && !h.players[1].hasFolded
    && !h.players[0].isAllIn && !h.players[1].isAllIn
  }

  /**
   * The opening of a heads-up hand: the button is the big blind and the small blind acts
   * first, with bets of 10 and 20 and a pot of 30.
   */
  lemma HeadsUpBlinds(g: GameState, shuffled: seq<Card>)
    requires CanStartHand(g) && |shuffled| == DeckSize && |g.players| == 2
    requires g.players[0].socketId != g.players[1].socketId
    ensures var h := StartHand(g, shuffled); var sb := h.activePlayerIndex;
      && 0 <= sb < 2
      && HeadsUpPreflop(h, sb) && h.dealerIndex == 1 - sb
      && h.pot == 30 && h.currentBet == 20
      && h.players[sb].currentBet == 10 && h.players[1 - sb].currentBet == 20
      && h.players[sb].chips == g.players[sb].chips - 10
  {
    StartHandResets(g, shuffled);
    StartHandBlinds(g, shuffled);
  }

  /** The small blind calls the 10 it owes: the pot gains 10 and the big blind is to act. */
  lemma HeadsUpCall(h: GameState, sb: nat, roll: nat)
    requires HeadsUpPreflop(h, sb) && h.dealerIndex == 1 - sb && h.currentBet == 20
    requires h.players[sb].currentBet == 10 && h.players[1 - sb].currentBet == 20
    requires h.players[sb].chips >= 10
    ensures Ready(h) && SomeoneLive(Commit(h, sb, Call).players)
    ensures var h' := HandleAction(h, h.players[sb].socketId, Call, roll);
      && HeadsUpPreflop(h', 1 - sb) && h'.dealerIndex == 1 - sb
      && h'.pot == h.pot + 10 && h'.currentBet == 20
      && h'.players[0].currentBet == 20 && h'.players[1].currentBet == 20
  {
    var c := Commit(h, sb, Call);
    assert !c.players[sb].hasFolded;
    assert FindSeat(h.players, h.players[sb].socketId) == sb;
    assert NextActor(c.players, 1 - sb, 0) == 1 - sb;
    EligibleCountTwo(c.players);
  }

  lemma EligibleCountTwo(ps: seq<Player>)
    requires |ps| == 2 && Eligible(ps[0]) && Eligible(ps[1])
    ensures EligibleCount(ps) == 2
  {
    assert EligibleCount(ps[1..]) == 1 + EligibleCount(ps[1..][1..]);
    assert ps[1..][1..] == [];
  }

  /** The big blind checks: everyone has matched and the turn is back at dealer + 1, so the flop comes. */
  lemma HeadsUpCheck(h: GameState, bb: nat, roll: nat)
    requires HeadsUpPreflop(h, bb) && h.dealerIndex == bb
    requires h.players[0].currentBet == h.currentBet && h.players[1].currentBet == h.currentBet
    ensures Ready(h) && SomeoneLive(Commit(h, bb, Check).players)
    ensures var h' := HandleAction(h, h.players[bb].socketId, Check, roll);
      && h'.phase == Flop && h'.pot == h.pot && h'.currentBet == 0
      && |h'.communityCards| == 3 && h'.activePlayerIndex == 1 - bb
  {
    assert FindSeat(h.players, h.players[bb].socketId) == bb;
    assert NextActor(h.players, 1 - bb, 0) == 1 - bb;
    assert AllMatched(h.players, h.currentBet);
    NextPhaseDealsBoard(h, roll);
  }

  // ================================================================ broadcastState

  /**
   * Before the showdown the players projection tells nothing about a bot's cards but their
   * number: two tables that differ only in the bots' hole cards project identically.
   */
  lemma BroadcastHidesBotCards(phase: Phase, ps: seq<Player>, qs: seq<Player>)
    requires phase != Showdown && |ps| == |qs|
    requires forall i :: 0 <= i < |ps| ==>
      if ps[i].isHuman then qs[i] == ps[i]
      else qs[i] == ps[i].(hand := qs[i].hand) && |qs[i].hand| == |ps[i].hand|
    ensures Sanitize(phase, ps) == Sanitize(phase, qs)
  {
    var u, v := Sanitize(phase, ps), Sanitize(phase, qs);
    forall i | 0 <= i < |ps| ensures u[i] == v[i] {
      assert u[i].hand == v[i].hand;
    }
  }

  /** At the showdown nothing is hidden: the broadcast determines every player. */
  lemma ShowdownBroadcastRevealsAll(ps: seq<Player>, qs: seq<Player>)
    requires Sanitize(Showdown, ps) == Sanitize(Showdown, qs)
    ensures ps == qs
  {
    var u := Sanitize(Showdown, ps);
    forall i | 0 <= i < |ps| ensures ps[i] == qs[i] {
      assert |ps[i].hand| == |u[i].hand| == |qs[i].hand|;
      forall j | 0 <= j < |ps[i].hand| ensures ps[i].hand[j] == qs[i].hand[j] {
        assert u[i].hand[j] == Some(ps[i].hand[j]) == Some(qs[i].hand[j]);
      }
    }
  }

  /** The bots' hole cards, seat by seat. */
  function BotCards(ps: seq<Player>): seq<Card> {
    if ps == [] then [] else (if ps[0].isHuman then [] else ps[0].hand) + BotCards(ps[1..])
  }

  /** The humans' hole cards, seat by seat. */
  function HumanCards(ps: seq<Player>): seq<Card> {
    if ps == [] then [] else (if ps[0].isHuman then ps[0].hand else []) + HumanCards(ps[1..])
  }

  /** The cards a broadcast hand shows, skipping the nulls. */
  function Revealed(hand: seq<Option<Card>>): seq<Card> {
    if hand == [] then [] else (if hand[0].Some? then [hand[0].value] else []) + Revealed(hand[1..])
  }

  /** Every card the broadcast players show. */
  function ShownCards(view: seq<PublicPlayer>): seq<Card> {
    if view == [] then [] else Revealed(view[0].hand) + ShownCards(view[1..])
  }

  lemma {:induction false} RevealedShown(hand: seq<Card>)
    ensures Revealed(Shown(hand)) == hand
  {
    if hand != [] {
      assert Shown(hand)[1..] == Shown(hand[1..]);
      RevealedShown(hand[1..]);
    }
  }

  lemma {:induction false} RevealedHidden(hand: seq<Card>)
    ensures Revealed(Hidden(hand)) == []
  {
    if hand != [] {
      assert Hidden(hand)[1..] == Hidden(hand[1..]);
      RevealedHidden(hand[1..]);
    }
  }

  /** Before the showdown the broadcast players show exactly the humans' cards. */
  lemma {:induction false} ShownAreHumanCards(phase: Phase, ps: seq<Player>)
    requires phase != Showdown
    ensures ShownCards(Sanitize(phase, ps)) == HumanCards(ps)
  {
    if ps != [] {
      var view := Sanitize(phase, ps);
      assert view[1..] == Sanitize(phase, ps[1..]);
      ShownAreHumanCards(phase, ps[1..]);
      if ps[0].isHuman {
        assert view[0].hand == Shown(ps[0].hand);
        RevealedShown(ps[0].hand);
      } else {
        assert view[0].hand == Hidden(ps[0].hand);
        RevealedHidden(ps[0].hand);
      }
    }
  }

  lemma {:induction false} HandsSplit(ps: seq<Player>)
    ensures multiset(HandsOf(ps)) == multiset(BotCards(ps)) + multiset(HumanCards(ps))
  {
    if ps != [] {
      HandsSplit(ps[1..]);
    }
  }

  lemma {:induction false} ReversedSameCards(s: seq<Card>)
    ensures multiset(Reversed(s)) == multiset(s)
    decreases |s|
  {
    if s != [] {
      var init := s[..|s| - 1];
      assert Reversed(s) == [s[|s| - 1]] + Reversed(init);
      assert s == init + [s[|s| - 1]];
      ReversedSameCards(init);
    }
  }

  /**
   * What the broadcast leaks, as written: the bots' hole cards are the cards of the hand's
   * deck minus the deck, the board and the humans' cards that the broadcast shows.  Every
   * hand is dealt from the 52 cards (NewHandHoldsEveryCardOnce, HandleActionKeepsStack), so a
   * client reads off which cards the bots hold.
   */
  lemma BroadcastExposesBotCards(g: GameState)
    requires g.phase != Showdown
    ensures var b := Broadcast(g);
      multiset(BotCards(g.players))
        == multiset(Stack(g)) - multiset(b.deck) - multiset(b.communityCards)
           - multiset(ShownCards(b.players))
  {
    ReversedSameCards(Dealt(g));
    HandsSplit(g.players);
    ShownAreHumanCards(g.phase, g.players);
  }

  /** At a table of one human and one bot, the broadcast gives away the bot's exact hand. */
  lemma OneBotHandExposed(g: GameState)
    requires g.phase != Showdown && |g.players| == 2
    requires g.players[0].isHuman && !g.players[1].isHuman
    ensures var b := Broadcast(g);
      multiset(g.players[1].hand)
        == multiset(Stack(g)) - multiset(b.deck) - multiset(b.communityCards)
           - multiset(ShownCards(b.players))
  {
    BroadcastExposesBotCards(g);
    var ps := g.players;
    assert ps[1..][1..] == [];
    assert BotCards(ps[1..]) == ps[1].hand + BotCards(ps[1..][1..]);
    assert BotCards(ps) == BotCards(ps[1..]);
  }

  /**
   * With the deck withheld, two tables that differ only in the deck and in the bots' hole
   * cards (of the same number) are broadcast identically before the showdown.
   */
  lemma PrivateBroadcastHidesBotCards(g: GameState, h: GameState)
    requires g.phase != Showdown
    requires h == g.(deck := h.deck, players := h.players) && |h.players| == |g.players|
    requires forall i :: 0 <= i < |g.players| ==>
      if g.players[i].isHuman then h.players[i] == g.players[i]
      else h.players[i] == g.players[i].(hand := h.players[i].hand)
           && |h.players[i].hand| == |g.players[i].hand|
    ensures PrivateBroadcast(g) == PrivateBroadcast(h)
  {
    BroadcastHidesBotCards(g.phase, g.players, h.players);
  }

  // ================================================================ the hand invariant

  /**
   * What holds at every point of a hand at a table of at most 11 seats (so that the
   * 10-step search covers every seat): the turn and the button are seats, the ids are
   * distinct, the board size follows the phase, the deck still covers the rest of the
   * board, and nobody is ever all-in.
   */
  predicate Table(g: GameState) {
    && 1 <= |g.players| <= MaxSkips + 1
    && 0 <= g.activePlayerIndex < |g.players|
    && 0 <= g.dealerIndex < |g.players|
    && Distinct(Ids(g.players))
    && g.phase != Lobby
    && |g.communityCards| == BoardSize(g.phase)
    && |g.deck| + |g.communityCards| >= 5
    && (forall i :: 0 <= i < |g.players| ==> !g.players[i].isAllIn)
  }

  /** Between actions, moreover, the seat to act has not folded while betting is open. */
  predicate InPlay(g: GameState) {
    Table(g) && (Betting(g.phase) ==> !g.players[g.activePlayerIndex].hasFolded)
  }

  /** A new hand at a table of 1 to 11 players with distinct ids starts in the invariant. */
  lemma StartHandInPlay(g: GameState, shuffled: seq<Card>)
    requires CanStartHand(g) && |shuffled| == DeckSize
    requires |g.players| <= MaxSkips + 1 && Distinct(Ids(g.players))
    ensures InPlay(StartHand(g, shuffled))
  {
    StartHandResets(g, shuffled);
    assert Ids(StartHand(g, shuffled).players) == Ids(g.players);
  }

  /** The chip movement of an action keeps the table shape and every hand. */
  lemma CommitKeepsTable(g: GameState, seat: nat, action: Action)
    requires Table(g) && seat < |g.players|
    ensures Table(Commit(g, seat, action))
    ensures HandsOf(Commit(g, seat, action).players) == HandsOf(g.players)
  {
    var c := Commit(g, seat, action);
    assert Ids(c.players) == Ids(g.players);
    SameHands(c.players, g.players);
  }

  /** `nextPhase` from a table in shape leaves one between actions. */
  lemma NextPhaseInPlay(g: GameState, roll: nat)
    requires Table(g) && SomeoneLive(g.players)
    ensures InPlay(NextPhase(g, roll))
  {
    NextPhaseResetsBets(g, roll);
    NextPhaseDealsBoard(g, roll);
    var h := NextPhase(g, roll);
    assert Ids(h.players) == Ids(g.players);
    if g.phase != River {
      NextPhaseFirstActor(g, roll);
    } else {
      ShowdownKeepsTurn(g, roll);
    }
  }

  /** The showdown leaves the turn index where it was. */
  lemma ShowdownKeepsTurn(g: GameState, roll: nat)
    requires CanAdvancePhase(g) && g.phase == River
    ensures NextPhase(g, roll).activePlayerIndex == g.activePlayerIndex
  {
    RiverSettles(g, roll);
  }

  lemma {:induction false} EligibleSeatExists(ps: seq<Player>)
    requires EligibleCount(ps) > 0
    ensures exists e :: 0 <= e < |ps| && Eligible(ps[e])
  {
    if !Eligible(ps[0]) {
      EligibleSeatExists(ps[1..]);
      var e :| 0 <= e < |ps| - 1 && Eligible(ps[1..][e]);
      assert Eligible(ps[e + 1]);
    }
  }

  /** An unfinished round has an eligible seat, so the turn moves to one. */
  lemma TurnPassesInPlay(g: GameState, roll: nat)
    requires Table(g) && SomeoneLive(g.players)
    requires !RoundComplete(g, NextActor(g.players, Next(g.activePlayerIndex, |g.players|), 0))
    ensures InPlay(AfterAction(g, roll))
  {
    var n := |g.players|;
    var e: nat;
    if !AllMatched(g.players, g.currentBet) {
      e :| 0 <= e < n && Eligible(g.players[e]) && g.players[e].currentBet != g.currentBet;
    } else {
      EligibleSeatExists(g.players);
      e :| 0 <= e < n && Eligible(g.players[e]);
    }
    NextActorIsFirstEligible(g.players, Next(g.activePlayerIndex, n), e);
  }

  /** The invariant survives every accepted or ignored action. */
  lemma HandleActionInPlay(g: GameState, socketId: string, action: Action, roll: nat)
    requires InPlay(g)
    requires FindSeat(g.players, socketId) == g.activePlayerIndex ==>
               SomeoneLive(Commit(g, g.activePlayerIndex, action).players)
    ensures InPlay(HandleAction(g, socketId, action, roll))
  {
    var seat := FindSeat(g.players, socketId);
    if seat == g.activePlayerIndex {
      var c := Commit(g, seat, action);
      CommitKeepsTable(g, seat, action);
      var next := NextActor(c.players, Next(c.activePlayerIndex, |c.players|), 0);
      if RoundComplete(c, next) {
        NextPhaseInPlay(c, roll);
      } else {
        TurnPassesInPlay(c, roll);
      }
    }
  }

  /** The flop pops three cards onto the empty board. */
  lemma FlopKeepsStack(g: GameState, roll: nat)
    requires CanAdvancePhase(g) && g.phase == Preflop && g.communityCards == []
    ensures Stack(NextPhase(g, roll)) == Stack(g)
  {
    NextPhaseResetsBets(g, roll);
    NextPhaseDealsBoard(g, roll);
    var h := NextPhase(g, roll);
    SameHands(h.players, g.players);
    var d, hands := g.deck, HandsOf(g.players);
    var top := [d[|d| - 1], d[|d| - 2], d[|d| - 3]];
    ReversedAppend(hands, top);
    assert Reversed(top) == d[|d| - 3..];
    assert Dealt(g) == hands;
    assert d == d[..|d| - 3] + d[|d| - 3..];
  }

  /** The turn and the river pop one card onto the board. */
  lemma StreetKeepsStack(g: GameState, roll: nat)
    requires CanAdvancePhase(g) && (g.phase == Flop || g.phase == Turn)
    ensures Stack(NextPhase(g, roll)) == Stack(g)
  {
    NextPhaseResetsBets(g, roll);
    NextPhaseDealsBoard(g, roll);
    var h := NextPhase(g, roll);
    SameHands(h.players, g.players);
    var d := g.deck;
    assert Dealt(h) == Dealt(g) + [d[|d| - 1]];
    ReversedAppend(Dealt(g), [d[|d| - 1]]);
    assert d == d[..|d| - 1] + [d[|d| - 1]];
  }

  /**
   * `nextPhase` only pops cards from the deck onto the board (the flop replaces the
   * board, which is empty before it), so no card appears, vanishes or moves otherwise.
   */
  lemma NextPhaseKeepsStack(g: GameState, roll: nat)
    requires CanAdvancePhase(g) && (g.phase == Preflop ==> g.communityCards == [])
    ensures Stack(NextPhase(g, roll)) == Stack(g)
  {
    if g.phase == Preflop {
      FlopKeepsStack(g, roll);
    } else if g.phase == Flop || g.phase == Turn {
      StreetKeepsStack(g, roll);
    } else {
      NextPhaseResetsBets(g, roll);
      NextPhaseDealsBoard(g, roll);
      var h := NextPhase(g, roll);
      SameHands(h.players, g.players);
    }
  }

  /** No action creates, loses or reorders a card: the stack of the hand stays the same. */
  lemma HandleActionKeepsStack(g: GameState, socketId: string, action: Action, roll: nat)
    requires InPlay(g)
    requires FindSeat(g.players, socketId) == g.activePlayerIndex ==>
               SomeoneLive(Commit(g, g.activePlayerIndex, action).players)
    ensures Stack(HandleAction(g, socketId, action, roll)) == Stack(g)
  {
    var seat := FindSeat(g.players, socketId);
    if seat == g.activePlayerIndex {
      var c := Commit(g, seat, action);
      CommitKeepsTable(g, seat, action);
      var next := NextActor(c.players, Next(c.activePlayerIndex, |c.players|), 0);
      if RoundComplete(c, next) {
        NextPhaseKeepsStack(c, roll);
      }
    }
  }

  /** The bot's turn is an ordinary action: it keeps the chips, the cards and the invariant. */
  lemma BotTurnKeepsInvariant(g: GameState, index: nat, callDraw: bool, roll: nat)
    requires InPlay(g) && index < |g.players|
    requires var a := BotDecision(g, index, callDraw);
      FindSeat(g.players, g.players[index].socketId) == g.activePlayerIndex ==>
        SomeoneLive(Commit(g, g.activePlayerIndex, a).players)
    ensures var h := HandleAction(g, g.players[index].socketId, BotDecision(g, index, callDraw), roll);
      InPlay(h) && Total(h) == Total(g) && Stack(h) == Stack(g)
  {
    var a := BotDecision(g, index, callDraw);
    HandleActionInPlay(g, g.players[index].socketId, a, roll);
    HandleActionConservesChips(g, g.players[index].socketId, a, roll);
    HandleActionKeepsStack(g, g.players[index].socketId, a, roll);
  }
}
