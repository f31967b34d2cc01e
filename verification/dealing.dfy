/** Starting a hand: building the engine, dealing hole cards and posting the blinds. */
module Dealing {
  import opened Cards
  import opened Table

  /** A player with every per-hand field cleared; the stack is carried over. */
  function ClearHand(p: Player): (r: Player)
    ensures r.id == p.id && r.chips == p.chips
    ensures r.hand == [] && r.currentBet == 0 && !r.hasActed && !r.folded && r.lastAction == None
  {
    p.(hand := [], currentBet := 0, hasActed := false, folded := false, lastAction := None)
  }

  /** The dealer seat of a new hand: it moves on only when the previous hand left a pot. */
  function NextDealer(s: GameState): (d: nat)
    requires s.dealerPosition < 2
    ensures d < 2
    ensures s.pot <= 0 ==> d == s.dealerPosition
    ensures s.pot > 0 ==> d != s.dealerPosition
  {
    if s.pot > 0 then (s.dealerPosition + 1) % 2 else s.dealerPosition
  }

  /** Start a hand from `s` with the shuffled deck `shuffled` (its end is the top). The
      dealer seat posts the small blind and gets the first two cards off the top; the other
      seat posts the big blind and gets the next two. Stacks are not checked first, so a
      stack smaller than its blind goes negative. */
  function StartHand(s: GameState, shuffled: seq<Card>): (r: Game)
    requires TwoSeats(s)
    requires |shuffled| >= 4
    ensures Seated(r.state) && SameIds(s, r.state)
    ensures var d := r.state.dealerPosition; var b := 1 - d;
      && d == NextDealer(s)
      && r.state.players[d].chips == s.players[d].chips - SmallBlind
      && r.state.players[d].currentBet == SmallBlind
      && r.state.players[b].chips == s.players[b].chips - BigBlind
      && r.state.players[b].currentBet == BigBlind
      && r.state.currentPlayerId == Some(r.state.players[d].id)
      && r.state.lastRaiserId == Some(r.state.players[b].id)
    ensures forall j :: 0 <= j < 2 ==>
      && |r.state.players[j].hand| == 2
      && !r.state.players[j].folded && !r.state.players[j].hasActed
      && r.state.players[j].lastAction == None
    ensures r.state.communityCards == [] && r.state.stage == PreFlop
    ensures r.state.pot == SmallBlind + BigBlind && r.state.currentBetToMatch == BigBlind
    ensures r.state.winner == None
    ensures r.state.gameId == s.gameId && r.state.gameOver == s.gameOver
    ensures r.deck == shuffled[..|shuffled| - 4]
    ensures var n := |shuffled|; var d := r.state.dealerPosition;
      && r.state.players[d].hand == [shuffled[n - 1], shuffled[n - 2]]
      && r.state.players[1 - d].hand == [shuffled[n - 3], shuffled[n - 4]]
    ensures Bankroll(r.state) == ChipSum(s.players)
  {
    var dealer := NextDealer(s);
    var n := |shuffled|;
    var sbPlayer := ClearHand(s.players[dealer]).(
      hand := [shuffled[n - 1], shuffled[n - 2]],
      chips := s.players[dealer].chips - SmallBlind,
      currentBet := SmallBlind);
    var bbPlayer := ClearHand(s.players[1 - dealer]).(
      hand := [shuffled[n - 3], shuffled[n - 4]],
      chips := s.players[1 - dealer].chips - BigBlind,
      currentBet := BigBlind);
    var players := if dealer == 0 then [sbPlayer, bbPlayer] else [bbPlayer, sbPlayer];
    var r := Game(
      s.(players := players,
         communityCards := [],
         pot := SmallBlind + BigBlind,
         winner := None,
         currentBetToMatch := BigBlind,
         stage := PreFlop,
         currentPlayerId := Some(sbPlayer.id),
         lastRaiserId := Some(bbPlayer.id),
         dealerPosition := dealer),
      shuffled[..n - 4]);
    ChipSumPair(s.players);
    ChipSumPair(players);
    r
  }

  /** Dealing moves cards from the deck into the hands and loses none. */
  lemma StartHandKeepsCards(s: GameState, shuffled: seq<Card>)
    requires TwoSeats(s)
    requires |shuffled| >= 4
    ensures CardsInPlay(StartHand(s, shuffled)) == multiset(shuffled)
  {
    var r := StartHand(s, shuffled);
    DealtCards(shuffled);
    if r.state.dealerPosition == 0 {
      assert CardsInPlay(r) == multiset(r.deck) + multiset(r.state.players[0].hand) + multiset(r.state.players[1].hand);
    } else {
      assert CardsInPlay(r) == multiset(r.deck) + multiset(r.state.players[1].hand) + multiset(r.state.players[0].hand);
    }
  }

  /** Seat ids are the same in both states. */
  predicate SameIds(s: GameState, r: GameState) {
    |r.players| == |s.players| && forall j :: 0 <= j < |s.players| ==> r.players[j].id == s.players[j].id
  }

  /** Taking four cards off the top of a deck leaves the rest, and the four plus the rest
      are the cards of the deck. */
  lemma DealtCards(d: seq<Card>)
    requires |d| >= 4
    ensures var n := |d|;
      multiset(d[..n - 4]) + multiset([d[n - 1], d[n - 2]]) + multiset([d[n - 3], d[n - 4]])
      == multiset(d)
  {
    var n := |d|;
    assert d == d[..n - 4] + [d[n - 4], d[n - 3], d[n - 2], d[n - 1]];
  }

  /** The stack a seat starts the game with. */
  function StartingStack(startingChips: int, given: Option<int>): int {
    if given.Some? then given.value else startingChips
  }

  /** The state the constructor builds before the first hand is dealt. */
  function StartState(gameId: string, startingChips: int, userChips: Option<int>, botChips: Option<int>,
                      dealer: nat): (s: GameState)
    requires dealer < 2
    ensures TwoSeats(s) && s.pot == 0 && s.dealerPosition == dealer
    ensures s.gameId == gameId && !s.gameOver && s.winner == None
    ensures s.players[0].chips == StartingStack(startingChips, userChips)
    ensures s.players[1].chips == StartingStack(startingChips, botChips)
    ensures forall j :: 0 <= j < 2 ==>
      s.players[j].hand == [] && s.players[j].currentBet == 0
      && !s.players[j].hasActed && !s.players[j].folded && s.players[j].lastAction == None
    ensures ChipSum(s.players) == StartingStack(startingChips, userChips) + StartingStack(startingChips, botChips)
  {
    var user := Player(UserId, StartingStack(startingChips, userChips), [], 0, false, false, None);
    var bot := Player(BotId, StartingStack(startingChips, botChips), [], 0, false, false, None);
    ChipSumPair([user, bot]);
    GameState(gameId, [user, bot], [], 0, PreFlop, None, 0, None, dealer, None, false)
  }

  /** The constructor: both stacks (`startingChips` unless given per seat), the dealer
      position (`-1` means the coin toss `coin` decides) and the shuffled deck. A dealer
      position that indexes no seat of the two-player list fails; `-2` indexes seat 0. */
  function NewGame(gameId: string, startingChips: int, userChips: Option<int>, botChips: Option<int>,
                   dealerPos: int, coin: nat, shuffled: seq<Card>): (r: Result<Game>)
    requires coin <= 1
    requires IsShuffle(shuffled)
    ensures r.Err? <==> dealerPos != -1 && !(-2 <= dealerPos <= 1)
    ensures r.Err? ==> r.error == DealerOutOfRange
  {
    var dealer := if dealerPos != -1 then dealerPos else coin;
    if !(-2 <= dealer <= 1) then Err(DealerOutOfRange)
    else
      ShuffleHasNoRepeats(shuffled);
      Ok(StartHand(StartState(gameId, startingChips, userChips, botChips, if dealer < 0 then dealer + 2 else dealer), shuffled))
  }

  /** A hand dealt from a shuffle of the fresh deck leaves 48 distinct cards in the deck,
      duplicates no card, and starts in a state the engine can run. */
  lemma StartHandFromShuffle(s: GameState, shuffled: seq<Card>)
    requires TwoSeats(s)
    requires IsShuffle(shuffled)
    ensures |shuffled| == DeckSize
    ensures var g := StartHand(s, shuffled);
      && Playable(g) && BoardMatchesStage(g.state) && CardsAccounted(g)
      && |g.deck| == 48 && NoRepeats(multiset(g.deck))
  {
    ShuffleHasNoRepeats(shuffled);
    var g := StartHand(s, shuffled);
    StartHandKeepsCards(s, shuffled);
    var n := |shuffled|;
    assert shuffled == g.deck + shuffled[n - 4..];
    assert multiset(g.deck) <= multiset(shuffled);
    PartOfDeckHasNoRepeats(multiset(g.deck));
  }

  /** The seat a valid dealer position names: `-1` defers to the coin, `-2` wraps to seat 0. */
  function DealerSeat(dealerPos: int, coin: nat): nat
    requires coin <= 1 && (dealerPos == -1 || -2 <= dealerPos <= 1)
  {
    if dealerPos == -1 then coin else (dealerPos + 2) % 2
  }

  /** A valid dealer position builds the game and deals its first hand with that seat as
      dealer. */
  lemma NewGameStarts(gameId: string, startingChips: int, userChips: Option<int>, botChips: Option<int>,
                      dealerPos: int, coin: nat, shuffled: seq<Card>)
    requires coin <= 1
    requires IsShuffle(shuffled)
    requires dealerPos == -1 || -2 <= dealerPos <= 1
    ensures |shuffled| == DeckSize
    ensures NewGame(gameId, startingChips, userChips, botChips, dealerPos, coin, shuffled)
         == Ok(StartHand(StartState(gameId, startingChips, userChips, botChips, DealerSeat(dealerPos, coin)),
                         shuffled))
  {
    ShuffleHasNoRepeats(shuffled);
    var d0 := if dealerPos != -1 then dealerPos else coin;
    assert (if d0 < 0 then d0 + 2 else d0) == DealerSeat(dealerPos, coin);
  }

  /** A new game is a dealt pre-flop hand: the dealer is the requested seat (or the coin's)
      with no rotation, and every chip of the two starting stacks is on the table. */
  lemma NewGameDealsHand(gameId: string, startingChips: int, userChips: Option<int>, botChips: Option<int>,
                         dealerPos: int, coin: nat, shuffled: seq<Card>)
    requires coin <= 1
    requires IsShuffle(shuffled)
    requires dealerPos == -1 || -2 <= dealerPos <= 1
    ensures var r := NewGame(gameId, startingChips, userChips, botChips, dealerPos, coin, shuffled);
      && r.Ok?
      && r.value.state.dealerPosition == DealerSeat(dealerPos, coin)
      && r.value.state.gameId == gameId && !r.value.state.gameOver
      && Playable(r.value) && BoardMatchesStage(r.value.state) && CardsAccounted(r.value)
      && Bankroll(r.value.state) == StartingStack(startingChips, userChips) + StartingStack(startingChips, botChips)
  {
    var s0 := StartState(gameId, startingChips, userChips, botChips, DealerSeat(dealerPos, coin));
    NewGameStarts(gameId, startingChips, userChips, botChips, dealerPos, coin, shuffled);
    StartHandFromShuffle(s0, shuffled);
  }
}
