/**
 * The single-table Texas Hold'em engine of Backend/server.js, as functions on the
 * value of `gameState`.  Each function here is the meaning of one engine operation;
 * the class in module Server performs the same operation step by step and is proved
 * to produce exactly this value.
 */
module Holdem {
  import opened Cards
  import opened Seats

  const SmallBlind: int := 10
  const BigBlind: int := 20
  /** `minRaise` is initialised to 20 and never read or written again. */
  const InitialMinRaise: int := 20
  /** `loopSafety`: the turn advance skips at most this many seats. */
  const MaxSkips: nat := 10

  datatype Phase = Lobby | Preflop | Flop | Turn | River | Showdown

  /**
   * A seated player.  `isAllIn` exists in the record and is read by the turn advance,
   * but no operation ever sets it to true.
   */
  datatype Player = Player(
    id: int,
    socketId: string,
    name: string,
    chips: int,
    hand: seq<Card>,
    isHuman: bool,
    currentBet: int,
    hasFolded: bool,
    isAllIn: bool,
    isWinner: bool)

  /**
   * The action names `handlePlayerAction` dispatches on.  `Raise` carries the
   * requested total bet, an integer; `Unknown` is any other action name, for which
   * nothing changes but the turn advances.
   */
  datatype Action = Fold | Call | Raise(amount: int) | Check | Unknown

  datatype GameState = GameState(
    phase: Phase,
    pot: int,
    communityCards: seq<Card>,
    deck: seq<Card>,
    players: seq<Player>,
    activePlayerIndex: int,
    dealerIndex: int,
    currentBet: int,
    minRaise: int)

  /** The global state before anyone joins. */
  function InitialState(): GameState {
    GameState(Lobby, 0, [], [], [], -1, 0, 0, InitialMinRaise)
  }

  function Min(a: int, b: int): int {
    if a <= b then a else b
  }

  // ---------------------------------------------------------------- chips and cards

  function SumChips(ps: seq<Player>): int {
    if ps == [] then 0 else ps[0].chips + SumChips(ps[1..])
  }

  /** Every chip of the table: the pot plus all stacks (the pot already holds the bets). */
  function Total(g: GameState): int {
    g.pot + SumChips(g.players)
  }

  function HandsOf(ps: seq<Player>): seq<Card> {
    if ps == [] then [] else ps[0].hand + HandsOf(ps[1..])
  }

  /** The cards popped off the deck so far, in pop order: the hole cards seat by seat, then the board. */
  function Dealt(g: GameState): seq<Card> {
    HandsOf(g.players) + g.communityCards
  }

  /** The deck as it was before the first pop: what is left, then the popped cards pushed back. */
  function Stack(g: GameState): seq<Card> {
    g.deck + Reversed(Dealt(g))
  }

  // ---------------------------------------------------------------- startNewHand

  /** A player as the reset loop of `startNewHand` leaves it, holding `hand`. */
  function DealtPlayer(p: Player, hand: seq<Card>): Player {
    p.(hand := hand, currentBet := 0, hasFolded := false, isAllIn := false, isWinner := false)
  }

  /** The reset loop: player i pops the cards at positions |deck|-1-2i and |deck|-2-2i. */
  function Deal(ps: seq<Player>, deck: seq<Card>): seq<Player>
    requires 2 * |ps| <= |deck|
  {
    seq(|ps|, i requires 0 <= i < |ps| =>
      DealtPlayer(ps[i], [deck[|deck| - 1 - 2 * i], deck[|deck| - 2 - 2 * i]]))
  }

  /** Seat `seat` pays a blind of `amount`; nothing stops the stack going negative. */
  function PostBlind(ps: seq<Player>, seat: nat, amount: int): seq<Player>
    requires seat < |ps|
  {
    ps[seat := ps[seat].(chips := ps[seat].chips - amount, currentBet := amount)]
  }

  /**
   * What `startNewHand` needs to run without touching an undefined value: a player
   * (the seat arithmetic is modulo the player count), enough cards for every hand,
   * and a dealer seat at the table.
   */
  predicate CanStartHand(g: GameState) {
    && 1 <= |g.players|
    && 2 * |g.players| <= DeckSize
    && 0 <= g.dealerIndex < |g.players|
  }

  /** `startNewHand`, given the freshly shuffled deck. */
  function StartHand(g: GameState, shuffled: seq<Card>): GameState
    requires CanStartHand(g) && |shuffled| == DeckSize
  {
    var n := |g.players|;
    var dealer := Next(g.dealerIndex, n);
    var sb := Next(dealer, n);
    var bb := Ahead(dealer, 2, n);
    var blinded := PostBlind(PostBlind(Deal(g.players, shuffled), sb, SmallBlind), bb, BigBlind);
    GameState(Preflop, SmallBlind + BigBlind, [], shuffled[..|shuffled| - 2 * n], blinded,
              Next(bb, n), dealer, BigBlind, g.minRaise)
  }

  // ---------------------------------------------------------------- handlePlayerAction

  /** `players.findIndex(p => p.socketId === socketId)`. */
  function FindSeat(ps: seq<Player>, socketId: string): (i: int)
    ensures -1 <= i < |ps|
    ensures i >= 0 ==> ps[i].socketId == socketId
    ensures forall j :: 0 <= j < |ps| && (i == -1 || j < i) ==> ps[j].socketId != socketId
  {
    if ps == [] then -1
    else if ps[0].socketId == socketId then 0
    else
      var k := FindSeat(ps[1..], socketId);
      if k == -1 then -1 else k + 1
  }

  /** The chip movement of one action by seat `seat` (the first branch of the handler). */
  function Commit(g: GameState, seat: nat, action: Action): GameState
    requires seat < |g.players|
  {
    var p := g.players[seat];
    match action
    case Fold =>
      g.(players := g.players[seat := p.(hasFolded := true)])
    case Call =>
      var actualBet := Min(g.currentBet - p.currentBet, p.chips);
      g.(players := g.players[seat := p.(chips := p.chips - actualBet,
                                         currentBet := p.currentBet + actualBet)],
         pot := g.pot + actualBet)
    case Raise(totalBet) =>
      var added := totalBet - p.currentBet;
      if p.chips >= added then
        g.(players := g.players[seat := p.(chips := p.chips - added, currentBet := totalBet)],
           pot := g.pot + added,
           currentBet := totalBet)
      else g
    case Check => g
    case Unknown => g
  }

  /** A seat the turn advance may stop at. */
  predicate Eligible(p: Player) {
    !p.hasFolded && !p.isAllIn
  }

  /** `players.filter(p => !p.hasFolded && !p.isAllIn).length`. */
  function EligibleCount(ps: seq<Player>): nat {
    if ps == [] then 0 else (if Eligible(ps[0]) then 1 else 0) + EligibleCount(ps[1..])
  }

  /** `activePlayers.every(p => p.currentBet === gameState.currentBet)`. */
  predicate AllMatched(ps: seq<Player>, bet: int) {
    forall i :: 0 <= i < |ps| && Eligible(ps[i]) ==> ps[i].currentBet == bet
  }

  /** The `loopSafety` loop: from `idx`, skip folded or all-in seats, at most 10 times. */
  function NextActor(ps: seq<Player>, idx: nat, safety: nat): (next: nat)
    requires idx < |ps| && safety <= MaxSkips
    ensures next < |ps|
    decreases MaxSkips - safety
  {
    if !Eligible(ps[idx]) && safety < MaxSkips then NextActor(ps, Next(idx, |ps|), safety + 1)
    else idx
  }

  /** The test that ends the betting round. */
  predicate RoundComplete(g: GameState, next: nat)
    requires 0 <= g.dealerIndex < |g.players|
  {
    AllMatched(g.players, g.currentBet)
    && (next == Next(g.dealerIndex, |g.players|) || EligibleCount(g.players) < 2)
  }

  /** Turn advance after an accepted action: move the turn on, or end the round. */
  function AfterAction(g: GameState, roll: nat): GameState
    requires Ready(g) && SomeoneLive(g.players)
  {
    var n := |g.players|;
    var next := NextActor(g.players, Next(g.activePlayerIndex, n), 0);
    if RoundComplete(g, next) then NextPhase(g, roll)
    else g.(activePlayerIndex := next)
  }

  /**
   * The state in which an action can be handled: a hand has been started, so the turn index
   * and the dealer are seats and the deck still holds the board cards still
   * to come.
   */
  predicate Ready(g: GameState) {
    && 1 <= |g.players|
    && 0 <= g.activePlayerIndex < |g.players|
    && 0 <= g.dealerIndex < |g.players|
    && DeckSuffices(g)
  }

  /**
   * `handlePlayerAction(socketId, action, amount)`.  `roll` stands for the
   * `Math.random()` draw of `determineWinners`, used only if the action ends the river.
   * The source hangs (or dereferences an undefined winner) if nextPhase runs with every
   * player folded; the second precondition excludes exactly the actions that fold the
   * last player who had not folded.
   */
  function HandleAction(g: GameState, socketId: string, action: Action, roll: nat): GameState
    requires Ready(g)
    requires FindSeat(g.players, socketId) == g.activePlayerIndex ==>
               SomeoneLive(Commit(g, g.activePlayerIndex, action).players)
  {
    var seat := FindSeat(g.players, socketId);
    if seat != g.activePlayerIndex then g
    else AfterAction(Commit(g, seat, action), roll)
  }

  // ---------------------------------------------------------------- nextPhase

  predicate SomeoneLive(ps: seq<Player>) {
    exists i :: 0 <= i < |ps| && !ps[i].hasFolded
  }

  /** The deck holds the cards the next phase change pops. */
  predicate DeckSuffices(g: GameState) {
    match g.phase
    case Preflop => |g.deck| >= 3
    case Flop => |g.deck| >= 1
    case Turn => |g.deck| >= 1
    case _ => true
  }

  /** The forEach that resets every `currentBet`. */
  function ResetBets(ps: seq<Player>): seq<Player> {
    seq(|ps|, i requires 0 <= i < |ps| => ps[i].(currentBet := 0))
  }

  lemma ResetKeepsFolds(ps: seq<Player>)
    ensures SomeoneLive(ps) ==> SomeoneLive(ResetBets(ps))
  {
    if SomeoneLive(ps) {
      var i :| 0 <= i < |ps| && !ps[i].hasFolded;
      assert !ResetBets(ps)[i].hasFolded;
    }
  }

  /** The search offset of the `while (hasFolded)` loop: skip folded seats from `start`. */
  function LiveOffset(ps: seq<Player>, start: nat, k: nat): (r: nat)
    requires start < |ps| && k <= |ps|
    ensures k <= r <= |ps|
    ensures r < |ps| ==> !ps[Walk(start, r, |ps|)].hasFolded
    ensures forall j :: k <= j < r ==> ps[Walk(start, j, |ps|)].hasFolded
    decreases |ps| - k
  {
    if k == |ps| then k
    else if !ps[Walk(start, k, |ps|)].hasFolded then k
    else LiveOffset(ps, start, k + 1)
  }

  /** When some seat has not folded, the search stops within one lap of the table. */
  lemma LiveOffsetFinds(ps: seq<Player>, start: nat)
    requires start < |ps| && SomeoneLive(ps)
    ensures LiveOffset(ps, start, 0) < |ps|
  {
    var i :| 0 <= i < |ps| && !ps[i].hasFolded;
    var d := Distance(start, i, |ps|);
    assert !ps[Walk(start, d, |ps|)].hasFolded;
  }

  /** The first seat at or after `start` that has not folded. */
  function FirstLiveSeat(ps: seq<Player>, start: nat): nat
    requires start < |ps|
  {
    Walk(start, LiveOffset(ps, start, 0), |ps|)
  }

  /** Reopen betting: the turn goes to the first live seat from dealer + 1. */
  function Reopen(g: GameState): GameState
    requires 1 <= |g.players| && 0 <= g.dealerIndex < |g.players|
  {
    g.(activePlayerIndex := FirstLiveSeat(g.players, Next(g.dealerIndex, |g.players|)))
  }

  /**
   * `nextPhase`.  A phase without a branch (the lobby, or a showdown that is reached
   * again) only resets the bets and reopens betting.
   */
  function NextPhase(g: GameState, roll: nat): GameState
    requires 1 <= |g.players| && 0 <= g.dealerIndex < |g.players|
    requires DeckSuffices(g) && SomeoneLive(g.players)
  {
    var reset := g.(players := ResetBets(g.players), currentBet := 0);
    var d := g.deck;
    match g.phase
    case Preflop =>
      Reopen(reset.(phase := Flop,
                    communityCards := [d[|d| - 1], d[|d| - 2], d[|d| - 3]],
                    deck := d[..|d| - 3]))
    case Flop =>
      Reopen(reset.(phase := Turn, communityCards := g.communityCards + [d[|d| - 1]],
                    deck := d[..|d| - 1]))
    case Turn =>
      Reopen(reset.(phase := River, communityCards := g.communityCards + [d[|d| - 1]],
                    deck := d[..|d| - 1]))
    case River =>
      ResetKeepsFolds(g.players);
      Settle(reset.(phase := Showdown), roll)
    case _ =>
      Reopen(reset)
  }

  // ---------------------------------------------------------------- showdown

  /** `players.filter(p => !p.hasFolded)`. */
  function Live(ps: seq<Player>): (live: seq<Player>)
    ensures |live| <= |ps|
    ensures forall k :: 0 <= k < |live| ==> live[k] in ps && !live[k].hasFolded
    ensures forall i :: 0 <= i < |ps| && !ps[i].hasFolded ==> ps[i] in live
  {
    if ps == [] then []
    else (if !ps[0].hasFolded then [ps[0]] else []) + Live(ps[1..])
  }

  /**
   * `determineWinners`: one live player picked at random, or nobody.  The draw
   * `Math.floor(Math.random() * n)` is the oracle value `roll` reduced modulo n.
   */
  function DetermineWinners(ps: seq<Player>, roll: nat): (winners: seq<Player>)
    ensures |winners| <= 1
    ensures forall k :: 0 <= k < |winners| ==> winners[k] in ps && !winners[k].hasFolded
    ensures |winners| == 1 <==> SomeoneLive(ps)
  {
    var live := Live(ps);
    if |live| == 0 then [] else [live[roll % |live|]]
  }

  function Ids(ps: seq<Player>): seq<int> {
    seq(|ps|, i requires 0 <= i < |ps| => ps[i].id)
  }

  /** The index `players.find(pl => pl.id === w.id)` lands on. */
  function FindById(ps: seq<Player>, id: int): (i: int)
    ensures -1 <= i < |ps|
    ensures i >= 0 ==> ps[i].id == id
    ensures i == -1 <==> id !in Ids(ps)
    ensures forall j :: 0 <= j < i ==> ps[j].id != id
  {
    if ps == [] then -1
    else if ps[0].id == id then assert Ids(ps)[0] == id; 0
    else
      var k := FindById(ps[1..], id);
      assert Ids(ps) == [ps[0].id] + Ids(ps[1..]);
      if k == -1 then -1 else k + 1
  }

  /** The body of the payout forEach for the seat found: `p.chips += winAmount; p.isWinner = true`. */
  function Award(ps: seq<Player>, seat: nat, amount: int): seq<Player>
    requires seat < |ps|
  {
    ps[seat := ps[seat].(chips := ps[seat].chips + amount, isWinner := true)]
  }

  /** One iteration of the payout forEach: find the winner's seat by id and award it. */
  function Credit(ps: seq<Player>, w: Player, amount: int): seq<Player>
    requires w.id in Ids(ps)
  {
    Award(ps, FindById(ps, w.id), amount)
  }

  /** The payout forEach over `winners`. */
  function Payout(ps: seq<Player>, winners: seq<Player>, amount: int): seq<Player>
    requires forall k :: 0 <= k < |winners| ==> winners[k].id in Ids(ps)
    decreases |winners|
  {
    if winners == [] then ps
    else
      var ps' := Credit(ps, winners[0], amount);
      assert Ids(ps') == Ids(ps);
      Payout(ps', winners[1..], amount)
  }

  /** The winners drawn from the table are found again by id. */
  lemma WinnersHaveIds(ps: seq<Player>, winners: seq<Player>)
    requires forall k :: 0 <= k < |winners| ==> winners[k] in ps
    ensures forall k :: 0 <= k < |winners| ==> winners[k].id in Ids(ps)
  {
    forall k | 0 <= k < |winners| ensures winners[k].id in Ids(ps) {
      var i :| 0 <= i < |ps| && ps[i] == winners[k];
      assert Ids(ps)[i] == winners[k].id;
    }
  }

  /** Paying one winner more: the payout of the first k + 1 winners credits the (k+1)-th. */
  lemma PayoutExtends(ps: seq<Player>, winners: seq<Player>, k: nat, amount: int)
    requires k < |winners|
    requires forall j :: 0 <= j < |winners| ==> winners[j].id in Ids(ps)
    ensures var paid := Payout(ps, winners[..k], amount);
      var seat := FindById(paid, winners[k].id);
      && Ids(paid) == Ids(ps)
      && 0 <= seat < |paid|
      && Payout(ps, winners[..k + 1], amount) == Award(paid, seat, amount)
  {
    assert winners[..k + 1] == winners[..k] + [winners[k]];
    PayoutSnoc(ps, winners[..k], winners[k], amount);
  }

  lemma {:induction false} PayoutSnoc(ps: seq<Player>, winners: seq<Player>, w: Player, amount: int)
    requires forall j :: 0 <= j < |winners| ==> winners[j].id in Ids(ps)
    requires w.id in Ids(ps)
    ensures Ids(Payout(ps, winners, amount)) == Ids(ps)
    ensures Payout(ps, winners + [w], amount) == Credit(Payout(ps, winners, amount), w, amount)
    decreases |winners|
  {
    if winners == [] {
      PayoutSingle(ps, w, amount);
    } else {
      var ps' := Credit(ps, winners[0], amount);
      assert Ids(ps') == Ids(ps);
      assert (winners + [w])[1..] == winners[1..] + [w];
      PayoutSnoc(ps', winners[1..], w, amount);
    }
  }

  lemma PayoutSingle(ps: seq<Player>, w: Player, amount: int)
    requires w.id in Ids(ps)
    ensures Payout(ps, [w], amount) == Credit(ps, w, amount)
  {
    assert [w][1..] == [];
  }

  /** The river branch: pay `floor(pot / |winners|)` to each winner and empty the pot. */
  function Settle(g: GameState, roll: nat): GameState
    requires SomeoneLive(g.players)
  {
    var winners := DetermineWinners(g.players, roll);
    WinnersHaveIds(g.players, winners);
    g.(players := Payout(g.players, winners, g.pot / |winners|), pot := 0)
  }

  // ---------------------------------------------------------------- botPlay

  /**
   * `botPlay(index)`: check when nothing is owed, otherwise call or fold.
   * `callDraw` stands for `Math.random() > 0.2`.
   */
  function BotDecision(g: GameState, index: nat, callDraw: bool): (a: Action)
    requires index < |g.players|
    ensures !a.Raise? && !a.Unknown?
    ensures a == Check <==> g.currentBet - g.players[index].currentBet <= 0
    ensures a == Fold <==> g.currentBet - g.players[index].currentBet > 0 && !callDraw
  {
    var toCall := g.currentBet - g.players[index].currentBet;
    if toCall > 0 then (if callDraw then Call else Fold) else Check
  }

  // ---------------------------------------------------------------- broadcastState

  /** A player as broadcast: a hidden card is `None` (the source's `null`). */
  datatype PublicPlayer = PublicPlayer(
    id: int,
    socketId: string,
    name: string,
    chips: int,
    hand: seq<Option<Card>>,
    isHuman: bool,
    currentBet: int,
    hasFolded: bool,
    isAllIn: bool,
    isWinner: bool)

  function Shown(hand: seq<Card>): seq<Option<Card>> {
    seq(|hand|, i requires 0 <= i < |hand| => Some(hand[i]))
  }

  function Hidden(hand: seq<Card>): seq<Option<Card>> {
    seq(|hand|, i requires 0 <= i < |hand| => None)
  }

  function Publish(p: Player, hand: seq<Option<Card>>): PublicPlayer {
    PublicPlayer(p.id, p.socketId, p.name, p.chips, hand, p.isHuman, p.currentBet,
                 p.hasFolded, p.isAllIn, p.isWinner)
  }

  /**
   * The `publicPlayers` map of `broadcastState`: at showdown every hand is shown;
   * otherwise a bot's cards are replaced by as many nulls and a human's are kept.
   */
  function Sanitize(phase: Phase, ps: seq<Player>): (view: seq<PublicPlayer>)
    ensures |view| == |ps|
    ensures forall i :: 0 <= i < |ps| ==>
      && |view[i].hand| == |ps[i].hand|
      && view[i] == Publish(ps[i], view[i].hand)
    ensures forall i, j :: 0 <= i < |ps| && 0 <= j < |ps[i].hand| ==>
      view[i].hand[j] == (if phase == Showdown || ps[i].isHuman then Some(ps[i].hand[j]) else None)
  {
    seq(|ps|, i requires 0 <= i < |ps| =>
      Publish(ps[i], if phase == Showdown || ps[i].isHuman then Shown(ps[i].hand)
                     else Hidden(ps[i].hand)))
  }

  /** The record `broadcastState` emits: every field of `gameState`, with the players sanitised. */
  datatype Snapshot = Snapshot(
    phase: Phase,
    pot: int,
    communityCards: seq<Card>,
    deck: seq<Card>,
    players: seq<PublicPlayer>,
    activePlayerIndex: int,
    dealerIndex: int,
    currentBet: int,
    minRaise: int)

  /** `{ ...gameState, players: publicPlayers }`, as written: the deck goes out too. */
  function Broadcast(g: GameState): (b: Snapshot)
    ensures b.deck == g.deck && b.communityCards == g.communityCards
    ensures b.players == Sanitize(g.phase, g.players)
  {
    Snapshot(g.phase, g.pot, g.communityCards, g.deck, Sanitize(g.phase, g.players),
             g.activePlayerIndex, g.dealerIndex, g.currentBet, g.minRaise)
  }

  /**
   * The broadcast with the deck withheld, which is what hiding the rivals' cards needs (the
   * client never reads the deck): everything else is sent as before.
   */
  function PrivateBroadcast(g: GameState): (b: Snapshot)
    ensures b == Broadcast(g).(deck := [])
  {
    Snapshot(g.phase, g.pot, g.communityCards, [], Sanitize(g.phase, g.players),
             g.activePlayerIndex, g.dealerIndex, g.currentBet, g.minRaise)
  }
}
