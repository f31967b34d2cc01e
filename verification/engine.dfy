/** The entry point: validating and applying one player action, passing the turn, and
    closing the betting round when it is complete. */
module Engine {
  import opened Table
  import opened Betting
  import opened Settlement
  import opened Streets

  /** Pass the turn. When only one player is left the hand ends: the stage becomes showdown
      and the pot is settled, and the turn stays where it was. Otherwise the next seat acts. */
  function AdvanceTurn(s: GameState, score: Scorer): (r: GameState)
    requires Seated(s)
    ensures Seated(r) && SameSeats(s, r)
    ensures forall j :: 0 <= j < 2 ==> r.players[j].folded == s.players[j].folded
    ensures ActiveCount(s.players) == 1 ==>
      && r.stage == Showdown && r.winner.Some? && r.currentPlayerId == s.currentPlayerId
      && r == DetermineWinner(s.(stage := Showdown), score)
    ensures ActiveCount(s.players) != 1 ==>
      && r == s.(currentPlayerId := r.currentPlayerId)
      && r.currentPlayerId == Some(s.players[1 - SeatOf(s.currentPlayerId.value)].id)
  {
    if ActiveCount(s.players) == 1 then
      DetermineWinner(s.(stage := Showdown), score)
    else
      IndexOfSeated(s, s.currentPlayerId.value);
      var current := IndexOf(s.players, s.currentPlayerId.value).value;
      s.(currentPlayerId := Some(s.players[(current + 1) % |s.players|].id))
  }

  /** Apply the verb: `fold`, `call` and `raise` are recognised; any other verb (including
      `check`) changes nothing. */
  function ApplyVerb(s: GameState, i: nat, action: string, amount: int): (r: GameState)
    requires TwoSeats(s) && i < 2
    ensures TwoSeats(r) && SameSeats(s, r)
    ensures Bankroll(r) == Bankroll(s)
    ensures r.stage == s.stage && r.communityCards == s.communityCards && r.winner == s.winner
    ensures r.currentPlayerId == s.currentPlayerId && r.gameOver == s.gameOver
    ensures forall j :: 0 <= j < 2 && s.players[j].folded ==> r.players[j].folded
    ensures action != "fold" ==> forall j :: 0 <= j < 2 ==> r.players[j].folded == s.players[j].folded
  {
    if action == "fold" then Fold(s, i)
    else if action == "call" then Call(s, i)
    else if action == "raise" then Raise(s, i, amount)
    else s
  }

  /** The dispatch of the verb: `fold` folds, `call` calls, `raise` raises with the requested
      amount, and every other verb leaves the state as it was. */
  lemma ApplyVerbDispatch(s: GameState, i: nat, action: string, amount: int)
    requires TwoSeats(s) && i < 2
    ensures action == "fold" ==> ApplyVerb(s, i, action, amount) == Fold(s, i)
    ensures action == "call" ==> ApplyVerb(s, i, action, amount) == Call(s, i)
    ensures action == "raise" ==> ApplyVerb(s, i, action, amount) == Raise(s, i, amount)
    ensures action != "fold" && action != "call" && action != "raise" ==>
      ApplyVerb(s, i, action, amount) == s
  {
  }

  /** The opponent's label is cleared before the acting player's verb is applied. */
  function ClearLabel(s: GameState, o: nat): (r: GameState)
    requires TwoSeats(s) && o < 2
    ensures TwoSeats(r) && SameSeats(s, r)
    ensures r.players[o] == s.players[o].(lastAction := None)
    ensures r.players[1 - o] == s.players[1 - o]
    ensures r == s.(players := r.players)
    ensures Bankroll(r) == Bankroll(s)
  {
    var r := s.(players := s.players[o := s.players[o].(lastAction := None)]);
    ChipSumPair(s.players);
    ChipSumPair(r.players);
    r
  }

  /** The betting part of an accepted action of seat `i`, whose opponent sits at `o`:
      clear the opponent's label, apply the verb and pass the turn. */
  function Respond(s: GameState, i: nat, o: nat, action: string, amount: int, score: Scorer): (r: GameState)
    requires Seated(s) && i < 2 && o == 1 - i
    ensures Seated(r) && SameSeats(s, r)
    ensures r.communityCards == s.communityCards
    ensures r.gameId == s.gameId && r.dealerPosition == s.dealerPosition
  {
    var cleared := ClearLabel(s, o);
    var acted := ApplyVerb(cleared, i, action, amount);
    assert Seated(acted) && SameSeats(s, acted);
    AdvanceTurn(acted, score)
  }

  /** Responding never takes a player back into the hand, and it ends the hand (at
      showdown, with a winner) only when somebody has folded. */
  lemma RespondEndsOnlyByFold(s: GameState, i: nat, action: string, amount: int, score: Scorer)
    requires Seated(s) && i < 2
    ensures var r := Respond(s, i, 1 - i, action, amount, score);
      && (forall j :: 0 <= j < 2 && s.players[j].folded ==> r.players[j].folded)
      && (r.stage != s.stage || r.winner != s.winner ==>
            r.stage == Showdown && AnyFolded(r) && r.winner.Some?)
  {
    var acted := ApplyVerb(ClearLabel(s, 1 - i), i, action, amount);
    ActiveCountPair(acted.players);
  }

  /** Responding moves chips between the stacks and the pot only, until it settles the hand;
      the settling response moves the pot into the stacks, less a split pot's odd chip. */
  lemma RespondConservesChips(s: GameState, i: nat, action: string, amount: int, score: Scorer)
    requires Seated(s) && i < 2 && s.winner == None
    ensures Worth(Respond(s, i, 1 - i, action, amount, score)) == Bankroll(s)
  {
    var acted := ApplyVerb(ClearLabel(s, 1 - i), i, action, amount);
    ActiveCountPair(acted.players);
  }

  /** An accepted action: respond, then advance the stage if the betting round is over.
      The deck is consulted only by the stage advance. */
  function Play(g: Game, i: nat, o: nat, action: string, amount: int, score: Scorer): (r: Game)
    requires Playable(g) && i < 2 && o == 1 - i
    ensures Playable(r) && SameSeats(g.state, r.state)
    ensures r.state.gameId == g.state.gameId && r.state.dealerPosition == g.state.dealerPosition
  {
    var passed := Respond(g.state, i, o, action, amount, score);
    if RoundOver(passed) then AdvanceStage(Game(passed, g.deck), score)
    else Game(passed, g.deck)
  }

  /** The accepted step closes the betting round exactly when the round test holds on the
      state the response leaves: otherwise only the response is applied and the deck is
      untouched; if it holds, the stage is advanced. */
  lemma PlayAdvancesIffRoundOver(g: Game, i: nat, action: string, amount: int, score: Scorer)
    requires Playable(g) && i < 2
    ensures var p := Respond(g.state, i, 1 - i, action, amount, score);
      && (!RoundOver(p) ==> Play(g, i, 1 - i, action, amount, score) == Game(p, g.deck))
      && (RoundOver(p) ==> Play(g, i, 1 - i, action, amount, score) == AdvanceStage(Game(p, g.deck), score))
      && (p.stage != Showdown ==>
            (Play(g, i, 1 - i, action, amount, score).state.stage == NextStage(p.stage) <==> RoundOver(p)))
  {
    var p := Respond(g.state, i, 1 - i, action, amount, score);
    if p.stage != Showdown {
      assert StageIndex(NextStage(p.stage)) != StageIndex(p.stage);
    }
  }

  /** One action of `playerId`. An id that no seat carries fails with `PlayerNotFound`, a
      seat acting out of turn fails with `NotYourTurn`; both fail before anything changes. */
  function HandleAction(g: Game, playerId: string, action: string, amount: int, score: Scorer): (r: Result<Game>)
    requires Playable(g)
    ensures r.Err? <==> (playerId != UserId && playerId != BotId) || g.state.currentPlayerId != Some(playerId)
    ensures r.Err? ==> r.error == (if playerId == UserId || playerId == BotId then NotYourTurn else PlayerNotFound)
    ensures r.Ok? ==> r.value == Play(g, SeatOf(playerId), 1 - SeatOf(playerId), action, amount, score)
  {
    var s := g.state;
    IndexOfSeated(s, playerId);
    match IndexOf(s.players, playerId)
    case None => Err(PlayerNotFound)
    case Some(i) =>
      if Some(s.players[i].id) != s.currentPlayerId then Err(NotYourTurn)
      else
        var otherId := if playerId == UserId then BotId else UserId;
        IndexOfSeated(s, otherId);
        match IndexOf(s.players, otherId)
        case None => Err(PlayerNotFound)
        case Some(o) => Ok(Play(g, i, o, action, amount, score))
  }

  /** Chips are conserved by every accepted action while the hand is unsettled: the stacks
      plus the pot stay what they were. The action that settles the hand moves the pot into
      the stacks, losing only the odd chip of a split pot. */
  lemma HandleActionConservesChips(g: Game, playerId: string, action: string, amount: int, score: Scorer)
    requires Playable(g) && g.state.winner == None
    ensures var r := HandleAction(g, playerId, action, amount, score);
      && (r.Ok? && r.value.state.winner == None ==> Bankroll(r.value.state) == Bankroll(g.state))
      && (r.Ok? && r.value.state.winner.Some? ==>
            ChipSum(r.value.state.players) + OddChip(r.value.state) == Bankroll(g.state))
  {
    var r := HandleAction(g, playerId, action, amount, score);
    if r.Ok? {
      var i := SeatOf(playerId);
      PlayConservesChips(g, i, action, amount, score);
    }
  }

  /** The accepted step keeps the chips the state accounts for. */
  lemma PlayConservesChips(g: Game, i: nat, action: string, amount: int, score: Scorer)
    requires Playable(g) && g.state.winner == None && i < 2
    ensures Worth(Play(g, i, 1 - i, action, amount, score).state) == Bankroll(g.state)
  {
    var passed := Respond(g.state, i, 1 - i, action, amount, score);
    RespondConservesChips(g.state, i, action, amount, score);
    RespondEndsOnlyByFold(g.state, i, action, amount, score);
    if RoundOver(passed) {
      AdvanceStageKeepsWorth(Game(passed, g.deck), score);
    }
  }

  /** The board keeps pace with the stage after every accepted action: 0, 3, 4 and 5 cards
      for pre-flop, flop, turn and river (and showdown), unless a fold ended the hand early. */
  lemma HandleActionKeepsBoard(g: Game, playerId: string, action: string, amount: int, score: Scorer)
    requires Playable(g) && BoardMatchesStage(g.state)
    ensures var r := HandleAction(g, playerId, action, amount, score);
      r.Ok? ==> BoardMatchesStage(r.value.state)
  {
    var r := HandleAction(g, playerId, action, amount, score);
    if r.Ok? {
      PlayKeepsBoard(g, SeatOf(playerId), action, amount, score);
    }
  }

  /** The accepted step keeps the board matching the stage. */
  lemma PlayKeepsBoard(g: Game, i: nat, action: string, amount: int, score: Scorer)
    requires Playable(g) && BoardMatchesStage(g.state) && i < 2
    ensures BoardMatchesStage(Play(g, i, 1 - i, action, amount, score).state)
  {
    var passed := Respond(g.state, i, 1 - i, action, amount, score);
    RespondEndsOnlyByFold(g.state, i, action, amount, score);
    assert BoardMatchesStage(passed);
    if RoundOver(passed) {
      AdvanceStageKeepsBoard(Game(passed, g.deck), score);
    }
  }

  /** No accepted action duplicates a card: whatever is in the deck, on the board and in the
      hands stays part of one fresh deck. */
  lemma HandleActionKeepsCards(g: Game, playerId: string, action: string, amount: int, score: Scorer)
    requires Playable(g) && CardsAccounted(g)
    ensures var r := HandleAction(g, playerId, action, amount, score);
      r.Ok? ==> CardsAccounted(r.value)
  {
    var r := HandleAction(g, playerId, action, amount, score);
    if r.Ok? {
      PlayKeepsCards(g, SeatOf(playerId), action, amount, score);
    }
  }

  /** The accepted step duplicates no card. */
  lemma PlayKeepsCards(g: Game, i: nat, action: string, amount: int, score: Scorer)
    requires Playable(g) && CardsAccounted(g) && i < 2
    ensures CardsAccounted(Play(g, i, 1 - i, action, amount, score))
  {
    var passed := Respond(g.state, i, 1 - i, action, amount, score);
    assert CardsInPlay(Game(passed, g.deck)) == CardsInPlay(g);
    if RoundOver(passed) {
      AdvanceStageKeepsCards(Game(passed, g.deck), score);
    }
  }

  /** Stages only move forward, one step at a time, in the order pre-flop, flop, turn, river,
      showdown; the one jump is straight to showdown when a fold ends the hand. */
  lemma HandleActionStageOrder(g: Game, playerId: string, action: string, amount: int, score: Scorer)
    requires Playable(g)
    ensures var r := HandleAction(g, playerId, action, amount, score);
      r.Ok? ==>
        var t := r.value.state;
        && StageIndex(t.stage) >= StageIndex(g.state.stage)
        && (t.stage == g.state.stage
            || (g.state.stage != Showdown && t.stage == NextStage(g.state.stage))
            || (t.stage == Showdown && AnyFolded(t)))
  {
    var r := HandleAction(g, playerId, action, amount, score);
    if r.Ok? {
      PlayStageOrder(g, SeatOf(playerId), action, amount, score);
      assert r.value == Play(g, SeatOf(playerId), 1 - SeatOf(playerId), action, amount, score);
    }
  }

  /** The accepted step moves the stage forward by at most one, except a fold's jump to showdown. */
  lemma PlayStageOrder(g: Game, i: nat, action: string, amount: int, score: Scorer)
    requires Playable(g) && i < 2
    ensures var t := Play(g, i, 1 - i, action, amount, score).state;
      && StageIndex(t.stage) >= StageIndex(g.state.stage)
      && (t.stage == g.state.stage
          || (g.state.stage != Showdown && t.stage == NextStage(g.state.stage))
          || (t.stage == Showdown && AnyFolded(t)))
  {
    var passed := Respond(g.state, i, 1 - i, action, amount, score);
    RespondEndsOnlyByFold(g.state, i, action, amount, score);
    if RoundOver(passed) {
      var t := AdvanceStage(Game(passed, g.deck), score).state;
      if passed.stage == Showdown {
        assert t.stage == Showdown && t.players == passed.players;
      } else {
        assert t.stage == NextStage(passed.stage);
      }
    }
  }

  /** A fold while both players are in ends the hand at once: the opponent takes the whole
      pot, the winner is recorded, the game is over, and no card is dealt. */
  lemma HandleActionFoldEndsHand(g: Game, playerId: string, amount: int, score: Scorer)
    requires Playable(g) && !AnyFolded(g.state)
    requires g.state.currentPlayerId == Some(playerId)
    ensures var r := HandleAction(g, playerId, "fold", amount, score);
      && r.Ok?
      && var t, i := r.value.state, SeatOf(playerId);
      && t.players[i].folded
      && t.winner == Some(g.state.players[1 - i].id)
      && t.players[1 - i].chips == g.state.players[1 - i].chips + g.state.pot
      && t.players[i].chips == g.state.players[i].chips
      && t.stage == Showdown && t.gameOver
      && t.pot == g.state.pot
      && t.communityCards == g.state.communityCards && r.value.deck == g.deck
  {
    var i := SeatOf(playerId);
    var cleared := ClearLabel(g.state, 1 - i);
    var acted := ApplyVerb(cleared, i, "fold", amount);
    ActiveCountPair(acted.players);
    var passed := AdvanceTurn(acted, score);
    ActiveCountPair(passed.players);
    assert RoundOver(passed);
  }
}
