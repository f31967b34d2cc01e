/** Two defects of the action entry point, each shown on the code as written and then
    removed in a guarded entry point, `Act`, whose intended property is proved. */
module Findings {
  import opened Cards
  import opened Table
  import opened Betting
  import opened Settlement
  import opened Streets
  import opened Dealing
  import opened Engine

  // ---------------------------------------------------------------------------------
  // Single actions at the level of `Play`, the accepted-action step of `HandleAction`.
  // ---------------------------------------------------------------------------------

  /** The state a bare pass of the turn from seat `i` leaves: the opponent's label cleared
      and the opponent to act, nothing else changed. */
  function PassTurn(s: GameState, i: nat): (r: GameState)
    requires TwoSeats(s) && i < 2
    ensures TwoSeats(r) && SameSeats(s, r)
    ensures r.players[i] == s.players[i]
    ensures r.players[1 - i] == s.players[1 - i].(lastAction := None)
    ensures r.currentPlayerId == Some(s.players[1 - i].id)
    ensures r == s.(players := r.players, currentPlayerId := r.currentPlayerId)
  {
    s.(players := s.players[1 - i := s.players[1 - i].(lastAction := None)],
       currentPlayerId := Some(s.players[1 - i].id))
  }

  /** As written, `check` by the player to act, with both players in, applies no verb: the
      turn passes and the round is closed only if it already was. While somebody has not
      acted this street, that means the state is just the turn passed. */
  lemma PlayCheck(g: Game, i: nat, amount: int, score: Scorer)
    requires Playable(g) && i < 2 && !AnyFolded(g.state)
    requires g.state.currentPlayerId == Some(g.state.players[i].id)
    requires !g.state.players[0].hasActed || !g.state.players[1].hasActed
    ensures Play(g, i, 1 - i, "check", amount, score) == Game(PassTurn(g.state, i), g.deck)
  {
    var cleared := ClearLabel(g.state, 1 - i);
    var acted := ApplyVerb(cleared, i, "check", amount);
    assert acted == cleared;
    ActiveCountPair(acted.players);
    RoundOverIgnoresOption(PassTurn(g.state, i));
  }

  /** A call by the player to act that the stack covers: the caller pays what is owed, the
      opponent's label is cleared and the turn passes. */
  lemma RespondCall(s: GameState, i: nat, score: Scorer)
    requires Seated(s) && i < 2 && !AnyFolded(s)
    requires s.currentPlayerId == Some(s.players[i].id)
    requires 0 <= s.currentBetToMatch - s.players[i].currentBet <= s.players[i].chips
    ensures var t, owed := Respond(s, i, 1 - i, "call", 0, score), s.currentBetToMatch - s.players[i].currentBet;
      && t == s.(players := t.players, pot := s.pot + owed, currentPlayerId := Some(s.players[1 - i].id))
      && t.players[i] == s.players[i].(chips := s.players[i].chips - owed,
                                         currentBet := s.currentBetToMatch, hasActed := true,
                                         lastAction := Some(if owed > 0 then Called else Checked))
      && t.players[1 - i] == s.players[1 - i].(lastAction := None)
  {
    var cleared := ClearLabel(s, 1 - i);
    var acted := ApplyVerb(cleared, i, "call", 0);
    assert acted == Call(cleared, i);
    ActiveCountPair(acted.players);
  }

  /** A call by the player to act that the stack covers, while the opponent has not acted:
      the caller pays what is owed and the turn passes; the round stays open. */
  lemma PlayCallWaits(g: Game, i: nat, score: Scorer)
    requires Playable(g) && i < 2 && !AnyFolded(g.state)
    requires g.state.currentPlayerId == Some(g.state.players[i].id)
    requires 0 <= g.state.currentBetToMatch - g.state.players[i].currentBet <= g.state.players[i].chips
    requires !g.state.players[1 - i].hasActed
    ensures Play(g, i, 1 - i, "call", 0, score) == Game(Respond(g.state, i, 1 - i, "call", 0, score), g.deck)
  {
    var passed := Respond(g.state, i, 1 - i, "call", 0, score);
    RespondCall(g.state, i, score);
    RoundOverIgnoresOption(passed);
  }

  /** A covered call by the player to act once the opponent has acted and matched the bet
      levels the bets, passes the turn and leaves the round over. */
  lemma RespondCallLevels(s: GameState, i: nat, score: Scorer)
    requires Seated(s) && i < 2 && !AnyFolded(s)
    requires s.currentPlayerId == Some(s.players[i].id)
    requires s.players[1 - i].hasActed && s.players[1 - i].currentBet == s.currentBetToMatch
    requires s.currentBetToMatch - s.players[i].currentBet <= s.players[i].chips
    ensures var t, owed := Respond(s, i, 1 - i, "call", 0, score), s.currentBetToMatch - s.players[i].currentBet;
      && RoundOver(t) && !AnyFolded(t)
      && t == s.(players := t.players, pot := s.pot + owed, currentPlayerId := t.currentPlayerId)
      && t.players[i].chips == s.players[i].chips - owed
      && t.players[1 - i].chips == s.players[1 - i].chips
  {
    var cleared := ClearLabel(s, 1 - i);
    var acted := ApplyVerb(cleared, i, "call", 0);
    ActiveCountPair(acted.players);
    var passed := AdvanceTurn(acted, score);
    RoundOverIgnoresOption(passed);
  }

  /** A covered call by the player to act once the opponent has acted and matched the bet
      closes the round: the next stage is set up and dealt. */
  lemma PlayCallCloses(g: Game, i: nat, score: Scorer)
    requires Playable(g) && i < 2 && !AnyFolded(g.state) && g.state.stage != Showdown
    requires g.state.currentPlayerId == Some(g.state.players[i].id)
    requires g.state.players[1 - i].hasActed
    requires g.state.players[1 - i].currentBet == g.state.currentBetToMatch
    requires g.state.currentBetToMatch - g.state.players[i].currentBet <= g.state.players[i].chips
    ensures var r := Play(g, i, 1 - i, "call", 0, score);
      var s, t, owed := g.state, r.state, g.state.currentBetToMatch - g.state.players[i].currentBet;
      && t.stage == NextStage(s.stage)
      && t.pot == s.pot + owed
      && t.currentBetToMatch == 0
      && t.currentPlayerId == Some(s.players[s.dealerPosition].id)
      && |t.communityCards| == |s.communityCards| + Revealed(t.stage)
      && (s.stage != River ==>
            t.players[i].chips == s.players[i].chips - owed
            && t.players[1 - i].chips == s.players[1 - i].chips)
  {
    var passed := Respond(g.state, i, 1 - i, "call", 0, score);
    RespondCallLevels(g.state, i, score);
    var h := Game(passed, g.deck);
    assert Play(g, i, 1 - i, "call", 0, score) == AdvanceStage(h, score);
    AdvanceStageSetsUpStreet(h, score);
    if g.state.stage != River {
      AdvanceStageKeepsStacks(h, score);
    }
  }

  /** A raise by the player to act, with both players in, leaves the street open: the
      raiser's bet and the bet to match become the clamped target, the opponent must act
      again and has the turn, and no chip leaves the table. */
  lemma PlayRaise(g: Game, i: nat, amount: int, score: Scorer)
    requires Playable(g) && i < 2 && !AnyFolded(g.state)
    requires g.state.currentPlayerId == Some(g.state.players[i].id)
    ensures var s, t := g.state, Play(g, i, 1 - i, "raise", amount, score).state;
      var target := RaiseTarget(s.players[i], s.currentBetToMatch, amount);
      && t.stage == s.stage && t.winner == s.winner && t.communityCards == s.communityCards
      && t.players[i].currentBet == target && t.currentBetToMatch == target
      && t.lastRaiserId == Some(s.players[i].id)
      && !t.players[1 - i].hasActed
      && t.currentPlayerId == Some(s.players[1 - i].id)
      && Bankroll(t) == Bankroll(s)
  {
    var cleared := ClearLabel(g.state, 1 - i);
    var acted := ApplyVerb(cleared, i, "raise", amount);
    ApplyVerbDispatch(cleared, i, "raise", amount);
    ActiveCountPair(acted.players);
    var passed := AdvanceTurn(acted, score);
    assert !RoundOver(passed);
  }

  /** A call the stack cannot cover, against a matched bet, puts the caller all in short of
      the bet: the bets stay unequal, so the round stays open and the turn passes. */
  lemma PlayShortCallStaysOpen(g: Game, i: nat, score: Scorer)
    requires Playable(g) && i < 2 && !AnyFolded(g.state)
    requires g.state.currentPlayerId == Some(g.state.players[i].id)
    requires g.state.players[1 - i].currentBet == g.state.currentBetToMatch
    requires 0 <= g.state.players[i].chips < g.state.currentBetToMatch - g.state.players[i].currentBet
    ensures var s, t := g.state, Play(g, i, 1 - i, "call", 0, score).state;
      && t.stage == s.stage && t.winner == s.winner
      && t.players[i].chips == 0
      && t.players[i].currentBet < t.players[1 - i].currentBet
      && t.currentPlayerId == Some(s.players[1 - i].id)
      && !AnyFolded(t)
  {
    var cleared := ClearLabel(g.state, 1 - i);
    var acted := ApplyVerb(cleared, i, "call", 0);
    ApplyVerbDispatch(cleared, i, "call", 0);
    ActiveCountPair(acted.players);
    var passed := AdvanceTurn(acted, score);
    RoundOverIgnoresOption(passed);
    assert !RoundOver(passed);
  }

  /** A fold by the player to act while the opponent is still in ends the hand, whether or
      not the folder had already folded: the opponent is paid the pot, the winner is
      recorded and the game is over; the turn stays with the folder. */
  lemma PlayFold(g: Game, i: nat, amount: int, score: Scorer)
    requires Playable(g) && i < 2 && !g.state.players[1 - i].folded
    requires g.state.currentPlayerId == Some(g.state.players[i].id)
    ensures var r := Play(g, i, 1 - i, "fold", amount, score); var s, t := g.state, r.state;
      && t.players[i].folded && !t.players[1 - i].folded
      && t.winner == Some(s.players[1 - i].id)
      && t.players[1 - i].chips == s.players[1 - i].chips + s.pot
      && t.players[i].chips == s.players[i].chips
      && t.stage == Showdown && t.gameOver && t.pot == s.pot
      && t.currentPlayerId == s.currentPlayerId
      && t.communityCards == s.communityCards && r.deck == g.deck
  {
    var cleared := ClearLabel(g.state, 1 - i);
    var acted := ApplyVerb(cleared, i, "fold", amount);
    ActiveCountPair(acted.players);
    var passed := AdvanceTurn(acted, score);
    ActiveCountPair(passed.players);
    assert RoundOver(passed);
  }

  // ---------------------------------------------------------------------------------
  // Finding 1: the verb "check" matches no branch.
  // ---------------------------------------------------------------------------------

  /** As written, `check` moves no chip and sets no flag: it only passes the turn. So while
      somebody has not acted this street, a check leaves the round open. */
  lemma CheckOnlyPassesTurn(g: Game, playerId: string, amount: int, score: Scorer)
    requires Playable(g) && !AnyFolded(g.state)
    requires g.state.currentPlayerId == Some(playerId)
    requires !g.state.players[0].hasActed || !g.state.players[1].hasActed
    ensures HandleAction(g, playerId, "check", amount, score)
         == Ok(Game(PassTurn(g.state, SeatOf(playerId)), g.deck))
  {
    PlayCheck(g, SeatOf(playerId), amount, score);
  }

  /** The hand the scenarios start: 1000 chips a seat, the user dealing. */
  function ScenarioStart(shuffled: seq<Card>): (g: Game)
    requires IsShuffle(shuffled)
    ensures Playable(g) && g.state.winner == None && !AnyFolded(g.state)
    ensures g.state.players[0].chips == 990 && g.state.players[0].currentBet == 10
    ensures g.state.players[1].chips == 980 && g.state.players[1].currentBet == 20
    ensures g.state.pot == 30 && g.state.currentPlayerId == Some(UserId)
    ensures g.state.stage == PreFlop && g.state.dealerPosition == 0
    ensures !g.state.players[0].hasActed && !g.state.players[1].hasActed
    ensures g.state.currentBetToMatch == BigBlind && |g.deck| == 48
    ensures g.state.communityCards == []
  {
    NewGameDealsHand("scenario", 1000, None, None, 0, 0, shuffled);
    StartHandFromShuffle(StartState("scenario", 1000, None, None, 0), shuffled);
    NewGame("scenario", 1000, None, None, 0, 0, shuffled).value
  }

  /** The dealer's opening call: both bets at the big blind, 40 in the pot, the big blind
      to act and not yet acted. */
  function AfterDealerCalls(shuffled: seq<Card>, score: Scorer): (g: Game)
    requires IsShuffle(shuffled)
    ensures var r := HandleAction(ScenarioStart(shuffled), UserId, "call", 0, score); r.Ok? && g == r.value
    ensures Playable(g) && !AnyFolded(g.state) && g.state.winner == None
    ensures g.state.stage == PreFlop && g.state.pot == 40 && g.state.currentPlayerId == Some(BotId)
    ensures g.state.players[0].chips == 980 && g.state.players[0].currentBet == 20
    ensures g.state.players[1].chips == 980 && g.state.players[1].currentBet == 20
    ensures g.state.players[0].hasActed && !g.state.players[1].hasActed
    ensures g.state.currentBetToMatch == BigBlind && g.state.dealerPosition == 0
    ensures |g.deck| == 48 && g.state.communityCards == []
  {
    var g0 := ScenarioStart(shuffled);
    PlayCallWaits(g0, 0, score);
    RespondCall(g0.state, 0, score);
    HandleAction(g0, UserId, "call", 0, score).value
  }

  /** The opening hand as written: the dealer calls the small blind up, the big blind checks,
      and the pre-flop round stays open with the big blind marked as not having acted. */
  lemma ScenarioCheckAsWritten(shuffled: seq<Card>, score: Scorer)
    requires IsShuffle(shuffled)
    ensures var r2 := HandleAction(AfterDealerCalls(shuffled, score), BotId, "check", 0, score);
      && r2.Ok?
      && r2.value.state.stage == PreFlop
      && r2.value.state.pot == 40
      && !r2.value.state.players[1].hasActed
      && r2.value.state.currentPlayerId == Some(UserId)
  {
    CheckOnlyPassesTurn(AfterDealerCalls(shuffled, score), BotId, 0, score);
  }

  // ---------------------------------------------------------------------------------
  // Finding 2: nothing rejects an action once the hand is settled.
  // ---------------------------------------------------------------------------------

  /** As written, after a fold has ended the hand the folder still holds the turn, and
      folding again pays the pot to the opponent a second time: chips are created. */
  lemma FoldAgainPaysAgain(g: Game, i: nat, score: Scorer)
    requires Playable(g) && i < 2
    requires g.state.players[i].folded && !g.state.players[1 - i].folded
    requires g.state.currentPlayerId == Some(g.state.players[i].id)
    ensures var r := HandleAction(g, g.state.players[i].id, "fold", 0, score);
      && r.Ok?
      && r.value.state.players[1 - i].chips == g.state.players[1 - i].chips + g.state.pot
      && ChipSum(r.value.state.players) == ChipSum(g.state.players) + g.state.pot
  {
    PlayFold(g, i, 0, score);
    var r := Play(g, i, 1 - i, "fold", 0, score);
    ChipSumPair(g.state.players);
    ChipSumPair(r.state.players);
    assert ChipSum(r.state.players) == ChipSum(g.state.players) + g.state.pot;
    assert SeatOf(g.state.players[i].id) == i;
    assert HandleAction(g, g.state.players[i].id, "fold", 0, score) == Ok(r);
  }

  /** The dealer's opening fold: the big blind is paid the 30-chip pot and the hand is
      settled, with the turn still on the dealer. */
  function AfterDealerFolds(shuffled: seq<Card>, score: Scorer): (g: Game)
    requires IsShuffle(shuffled)
    ensures var r := HandleAction(ScenarioStart(shuffled), UserId, "fold", 0, score); r.Ok? && g == r.value
    ensures Playable(g) && g.state.winner == Some(BotId)
    ensures g.state.players[0].folded && !g.state.players[1].folded
    ensures g.state.players[0].chips == 990 && g.state.players[1].chips == 1010
    ensures g.state.pot == 30 && g.state.currentPlayerId == Some(UserId)
  {
    var g0 := ScenarioStart(shuffled);
    PlayFold(g0, 0, 0, score);
    HandleAction(g0, UserId, "fold", 0, score).value
  }

  /** The opening hand as written: the dealer folds, then folds again. The big blind is paid
      the 30-chip pot twice, and the table ends with 2030 chips of the 2000 it started with. */
  lemma ScenarioFoldTwice(shuffled: seq<Card>, score: Scorer)
    requires IsShuffle(shuffled)
    ensures var g1 := AfterDealerFolds(shuffled, score);
      var r2 := HandleAction(g1, UserId, "fold", 0, score);
      && r2.Ok?
      && r2.value.state.players[1].chips == 1040
      && ChipSum(r2.value.state.players) == 2030
  {
    var g1 := AfterDealerFolds(shuffled, score);
    FoldAgainPaysAgain(g1, 0, score);
    ChipSumPair(g1.state.players);
  }

  // ---------------------------------------------------------------------------------
  // The guarded entry point.
  // ---------------------------------------------------------------------------------

  /** The verb the guarded entry point applies: `check` is read as `call`. */
  function Verb(action: string): (v: string)
    ensures action == "check" ==> v == "call"
    ensures action != "check" ==> v == action
  {
    if action == "check" then "call" else action
  }

  /** `HandleAction` with both defects removed: an action after the hand is settled fails
      with `GameOver`, and `check` is a call with nothing owed. */
  function Act(g: Game, playerId: string, action: string, amount: int, score: Scorer): (r: Result<Game>)
    requires Playable(g)
    ensures g.state.winner.Some? ==> r == Err(GameOver)
    ensures g.state.winner == None ==>
      r == HandleAction(g, playerId, Verb(action), amount, score)
    ensures r.Ok? ==> Playable(r.value)
  {
    if g.state.winner.Some? then Err(GameOver)
    else HandleAction(g, playerId, Verb(action), amount, score)
  }

  /** With the guard, a check by the player to act on a level street that nobody has acted
      on is a call of nothing: the checker is marked as having acted and the turn passes. */
  lemma FirstCheckActs(g: Game, score: Scorer)
    requires Playable(g) && g.state.winner == None && !AnyFolded(g.state)
    requires !g.state.players[0].hasActed && !g.state.players[1].hasActed
    requires g.state.players[0].currentBet == g.state.currentBetToMatch
    requires g.state.players[1].currentBet == g.state.currentBetToMatch
    requires g.state.players[0].chips >= 0 && g.state.players[1].chips >= 0
    ensures var first := g.state.currentPlayerId.value; var i := SeatOf(first);
      var r1 := Act(g, first, "check", 0, score);
      && r1.Ok?
      && var t := r1.value.state;
      && t.stage == g.state.stage && t.winner == None && !AnyFolded(t)
      && t.currentPlayerId == Some(g.state.players[1 - i].id)
      && t.players[i].hasActed && t.players[i].currentBet == t.currentBetToMatch
      && t.players[1 - i].currentBet == t.currentBetToMatch
      && t.players[1 - i].chips >= 0
  {
    var first := g.state.currentPlayerId.value;
    var i := SeatOf(first);
    PlayCallWaits(g, i, score);
    RespondCall(g.state, i, score);
    assert Act(g, first, "check", 0, score) == Ok(Play(g, i, 1 - i, "call", 0, score));
  }

  /** With the guard, a check by the player to act and then a check by the other close a
      street on which the bets are level and nobody has acted: the stage moves on. */
  lemma TwoChecksCloseStreet(g: Game, score: Scorer)
    requires Playable(g) && g.state.winner == None && !AnyFolded(g.state)
    requires g.state.stage != Showdown
    requires !g.state.players[0].hasActed && !g.state.players[1].hasActed
    requires g.state.players[0].currentBet == g.state.currentBetToMatch
    requires g.state.players[1].currentBet == g.state.currentBetToMatch
    requires g.state.players[0].chips >= 0 && g.state.players[1].chips >= 0
    ensures var first := g.state.currentPlayerId.value;
      var r1 := Act(g, first, "check", 0, score);
      && r1.Ok?
      && r1.value.state.stage == g.state.stage
      && r1.value.state.players[SeatOf(first)].hasActed
      && var r2 := Act(r1.value, r1.value.state.currentPlayerId.value, "check", 0, score);
      && r2.Ok?
      && r2.value.state.stage == NextStage(g.state.stage)
  {
    var first := g.state.currentPlayerId.value;
    var i := SeatOf(first);
    FirstCheckActs(g, score);
    var g1 := Act(g, first, "check", 0, score).value;
    var second := g.state.players[1 - i].id;
    PlayCallCloses(g1, 1 - i, score);
    assert SeatOf(second) == 1 - i;
    assert Act(g1, second, "check", 0, score) == Ok(Play(g1, 1 - i, i, "call", 0, score));
  }

  /** The opening hand with checks handled: the dealer calls, the big blind checks, and the
      flop is dealt with 40 in the pot and the dealer first to act. */
  lemma ScenarioCheckCorrected(shuffled: seq<Card>, score: Scorer)
    requires IsShuffle(shuffled)
    ensures var r2 := Act(AfterDealerCalls(shuffled, score), BotId, "check", 0, score);
      && r2.Ok?
      && var t := r2.value.state;
      && t.stage == Flop && t.pot == 40 && |t.communityCards| == 3
      && t.currentBetToMatch == 0 && t.currentPlayerId == Some(UserId)
      && t.players[0].chips == 980 && t.players[1].chips == 980
  {
    var g1 := AfterDealerCalls(shuffled, score);
    PlayCallCloses(g1, 1, score);
  }

  /** With the guard, an accepted action never creates chips: before settlement the
      stacks and the pot keep their total, the settling action moves it into the stacks
      (less a split pot's odd chip), and nothing is accepted afterwards. */
  lemma ActConservesWorth(g: Game, playerId: string, action: string, amount: int, score: Scorer)
    requires Playable(g)
    ensures var r := Act(g, playerId, action, amount, score);
      r.Ok? ==> Worth(r.value.state) == Worth(g.state)
  {
    if g.state.winner == None {
      HandleActionConservesChips(g, playerId, Verb(action), amount, score);
    }
  }

  /** A move a caller submits. */
  datatype Move = Move(playerId: string, action: string, amount: int)

  /** Submit `moves` in order through the guarded entry point; a rejected move leaves the
      game as it was. */
  function Run(g: Game, moves: seq<Move>, score: Scorer): (r: Game)
    requires Playable(g)
    ensures Playable(r)
    decreases |moves|
  {
    if |moves| == 0 then g
    else
      match Act(g, moves[0].playerId, moves[0].action, moves[0].amount, score)
      case Ok(next) => Run(next, moves[1..], score)
      case Err(_) => Run(g, moves[1..], score)
  }

  /** With the guard, no sequence of moves creates chips. */
  lemma {:induction false} RunConservesChips(g: Game, moves: seq<Move>, score: Scorer)
    requires Playable(g)
    ensures Worth(Run(g, moves, score).state) == Worth(g.state)
    decreases |moves|
  {
    if |moves| > 0 {
      var m := moves[0];
      var r := Act(g, m.playerId, m.action, m.amount, score);
      ActConservesWorth(g, m.playerId, m.action, m.amount, score);
      if r.Ok? {
        RunConservesChips(r.value, moves[1..], score);
      } else {
        RunConservesChips(g, moves[1..], score);
      }
    }
  }

  /** From a new game, any sequence of moves through the guarded entry point keeps the two
      starting stacks' chips on the table. */
  lemma NewGameRunConservesChips(startingChips: int, dealerPos: int, coin: nat, shuffled: seq<Card>,
                                 moves: seq<Move>, score: Scorer)
    requires coin <= 1 && IsShuffle(shuffled)
    requires dealerPos == -1 || -2 <= dealerPos <= 1
    ensures var g := NewGame("game", startingChips, None, None, dealerPos, coin, shuffled);
      && g.Ok? && Playable(g.value)
      && Worth(Run(g.value, moves, score).state) == 2 * startingChips
  {
    NewGameDealsHand("game", startingChips, None, None, dealerPos, coin, shuffled);
    var g := NewGame("game", startingChips, None, None, dealerPos, coin, shuffled).value;
    RunConservesChips(g, moves, score);
  }
}
