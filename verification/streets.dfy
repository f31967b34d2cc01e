/** Moving the hand from one street to the next: clearing the bets, burning and revealing
    community cards, and settling the hand when the river round closes. */
module Streets {
  import opened Cards
  import opened Table
  import opened Settlement

  /** How many community cards are turned over on entering a stage. */
  function Revealed(st: Stage): nat {
    match st
    case PreFlop => 0
    case Flop => 3
    case Turn => 1
    case River => 1
    case Showdown => 0
  }

  /** A player still in the hand starts the new street with no bet and without having acted;
      a folded player keeps both. */
  function NewStreet(p: Player): (r: Player)
    ensures r.id == p.id && r.chips == p.chips && r.hand == p.hand && r.folded == p.folded
    ensures !p.folded ==> r.currentBet == 0 && !r.hasActed
    ensures p.folded ==> r == p
  {
    if p.folded then p else p.(hasActed := false, currentBet := 0)
  }

  /** The bookkeeping of a new street: live bets cleared, the bet to match and the last
      raiser reset, the dealer seat to act first, and the stage moved on by one. */
  function Sweep(s: GameState): (t: GameState)
    requires Seated(s) && s.stage != Showdown
    ensures Seated(t) && SameSeats(s, t)
    ensures t.stage == NextStage(s.stage)
    ensures t.currentBetToMatch == 0 && t.lastRaiserId == None
    ensures t.currentPlayerId == Some(s.players[s.dealerPosition].id)
    ensures forall j :: 0 <= j < 2 ==> t.players[j] == NewStreet(s.players[j])
    ensures t == s.(players := t.players, currentBetToMatch := 0, currentPlayerId := t.currentPlayerId,
                    lastRaiserId := None, stage := t.stage)
    ensures Bankroll(t) == Bankroll(s)
  {
    var t := s.(players := [NewStreet(s.players[0]), NewStreet(s.players[1])],
                currentBetToMatch := 0,
                currentPlayerId := Some(s.players[s.dealerPosition].id),
                lastRaiserId := None,
                stage := NextStage(s.stage));
    ChipSumPair(s.players);
    ChipSumPair(t.players);
    t
  }

  /** The cards of `s` in the opposite order: what comes off a deck popped from its end. */
  function Reversed(s: seq<Card>): (r: seq<Card>)
    ensures |r| == |s|
  {
    seq(|s|, k requires 0 <= k < |s| => s[|s| - 1 - k])
  }

  /** Reversing keeps every card. */
  lemma {:induction false} ReversedKeepsCards(s: seq<Card>)
    ensures multiset(Reversed(s)) == multiset(s)
    decreases |s|
  {
    if |s| > 0 {
      var n := |s|;
      ReversedKeepsCards(s[..n - 1]);
      assert Reversed(s) == [s[n - 1]] + Reversed(s[..n - 1]);
      assert s == s[..n - 1] + [s[n - 1]];
    }
  }

  /** Burn the top card of `deck` and turn over the next `Revealed(t.stage)` onto the board. */
  function Reveal(t: GameState, deck: seq<Card>): (r: Game)
    requires t.stage == Flop || t.stage == Turn || t.stage == River
    requires |deck| >= Revealed(t.stage) + 1
    ensures r.state == t.(communityCards := r.state.communityCards)
    ensures |r.state.communityCards| == |t.communityCards| + Revealed(t.stage)
    ensures r.state.communityCards[..|t.communityCards|] == t.communityCards
    ensures |r.deck| == |deck| - Revealed(t.stage) - 1
    ensures r.deck == deck[..|deck| - Revealed(t.stage) - 1]
    ensures r.state.communityCards
         == t.communityCards + Reversed(deck[|deck| - 1 - Revealed(t.stage)..|deck| - 1])
  {
    var n := |deck|;
    if t.stage == Flop then
      var shown := [deck[n - 2], deck[n - 3], deck[n - 4]];
      assert shown == Reversed(deck[n - 4..n - 1]);
      Game(t.(communityCards := t.communityCards + shown), deck[..n - 4])
    else
      var shown := [deck[n - 2]];
      assert shown == Reversed(deck[n - 2..n - 1]);
      Game(t.(communityCards := t.communityCards + shown), deck[..n - 2])
  }

  /** Burning the top card and showing the next `shown` takes them off the top of the deck:
      what is left and what is shown are part of the deck. */
  lemma TakeFromTop(deck: seq<Card>, rest: seq<Card>, shown: seq<Card>, burned: Card)
    requires deck == rest + shown + [burned]
    ensures multiset(rest) + multiset(shown) <= multiset(deck)
  {
    assert multiset(deck) == multiset(rest) + multiset(shown) + multiset([burned]);
  }

  /** Revealing takes the board's new cards from the deck and burns one: no card appears
      twice. */
  lemma RevealKeepsCards(t: GameState, deck: seq<Card>)
    requires t.stage == Flop || t.stage == Turn || t.stage == River
    requires |deck| >= Revealed(t.stage) + 1
    ensures var r := Reveal(t, deck);
      multiset(r.deck) + multiset(r.state.communityCards) <= multiset(deck) + multiset(t.communityCards)
  {
    var n := |deck|;
    var under := deck[n - 1 - Revealed(t.stage)..n - 1];
    ReversedKeepsCards(under);
    ShowFromTop(deck, t.communityCards, Reversed(under), under);
  }

  /** Showing `shown` (the cards under the top one, in any order) after burning the top one
      moves them from the deck to the board. */
  lemma ShowFromTop(deck: seq<Card>, board: seq<Card>, shown: seq<Card>, under: seq<Card>)
    requires |under| < |deck| && under == deck[|deck| - 1 - |under|..|deck| - 1]
    requires multiset(shown) == multiset(under)
    ensures var rest := deck[..|deck| - 1 - |under|];
      multiset(rest) + multiset(board + shown) <= multiset(deck) + multiset(board)
  {
    var n := |deck|;
    var rest := deck[..n - 1 - |under|];
    assert deck == rest + under + [deck[n - 1]];
    TakeFromTop(deck, rest, under, deck[n - 1]);
  }

  /** The state once the betting round has closed. From showdown only `gameOver` is set.
      Otherwise the new street is set up and the next stage is dealt: a burn and three
      cards for the flop, a burn and one card for the turn and for the river; entering
      showdown settles the hand instead. */
  function AdvanceStage(g: Game, score: Scorer): (r: Game)
    requires Playable(g)
    ensures Playable(r) && SameSeats(g.state, r.state)
    ensures r.state.gameId == g.state.gameId && r.state.dealerPosition == g.state.dealerPosition
    ensures r.state.pot == g.state.pot
    ensures forall j :: 0 <= j < 2 ==> r.state.players[j].folded == g.state.players[j].folded
    ensures g.state.stage == Showdown ==> r == g.(state := g.state.(gameOver := true))
    ensures g.state.stage != Showdown ==> r.state.stage == NextStage(g.state.stage)
  {
    var s := g.state;
    if s.stage == Showdown then
      g.(state := s.(gameOver := true))
    else
      var swept := Sweep(s);
      if swept.stage == Showdown then
        var settled := DetermineWinner(swept, score);
        assert settled.communityCards == s.communityCards;
        Game(settled, g.deck)
      else
        Reveal(swept, g.deck)
  }

  /** A new street starts with no bet to match, no raiser, the dealer seat to act, and every
      player still in with no bet and not yet acted. The stage's cards are burned and dealt
      from the deck onto the end of the board, except that showdown deals nothing. */
  lemma AdvanceStageSetsUpStreet(g: Game, score: Scorer)
    requires Playable(g) && g.state.stage != Showdown
    ensures var s, r := g.state, AdvanceStage(g, score); var t, next := r.state, NextStage(s.stage);
      && t.currentBetToMatch == 0 && t.lastRaiserId == None
      && t.currentPlayerId == Some(s.players[s.dealerPosition].id)
      && t.gameOver == s.gameOver
      && |t.communityCards| == |s.communityCards| + Revealed(next)
      && t.communityCards[..|s.communityCards|] == s.communityCards
      && |r.deck| == |g.deck| - (if next == Showdown then 0 else Revealed(next) + 1)
      && forall j :: 0 <= j < 2 && !s.players[j].folded ==>
           t.players[j].currentBet == 0 && !t.players[j].hasActed
    ensures NextStage(g.state.stage) != Showdown ==>
      && AdvanceStage(g, score) == Reveal(Sweep(g.state), g.deck)
      && var n, k := |g.deck|, Revealed(NextStage(g.state.stage));
      && AdvanceStage(g, score).deck == g.deck[..n - 1 - k]
      && AdvanceStage(g, score).state.communityCards
         == g.state.communityCards + Reversed(g.deck[n - 1 - k..n - 1])
  {
    var swept := Sweep(g.state);
    if swept.stage == Showdown {
      assert AdvanceStage(g, score) == Game(DetermineWinner(swept, score), g.deck);
    } else {
      assert AdvanceStage(g, score) == Reveal(swept, g.deck);
    }
  }

  /** A new street before showdown keeps the winner and every chip; entering showdown settles
      the hand, moving the pot into the stacks less a split pot's odd chip. */
  lemma AdvanceStageSettles(g: Game, score: Scorer)
    requires Playable(g) && g.state.stage != Showdown
    ensures var s, t, next := g.state, AdvanceStage(g, score).state, NextStage(g.state.stage);
      && (next != Showdown ==> t.winner == s.winner && Bankroll(t) == Bankroll(s))
      && (next == Showdown ==> t.winner.Some? && ChipSum(t.players) + OddChip(t) == Bankroll(s))
    ensures NextStage(g.state.stage) == Showdown ==>
      AdvanceStage(g, score) == Game(DetermineWinner(Sweep(g.state), score), g.deck)
  {
    var swept := Sweep(g.state);
    if swept.stage == Showdown {
      assert AdvanceStage(g, score) == Game(DetermineWinner(swept, score), g.deck);
    } else {
      var r := Reveal(swept, g.deck);
      assert AdvanceStage(g, score) == r;
      assert r.state.players == swept.players;
    }
  }

  /** A new street before showdown keeps every stack. */
  lemma AdvanceStageKeepsStacks(g: Game, score: Scorer)
    requires Playable(g) && g.state.stage != Showdown && g.state.stage != River
    ensures var t := AdvanceStage(g, score).state;
      forall j :: 0 <= j < 2 ==> t.players[j].chips == g.state.players[j].chips
  {
    var swept := Sweep(g.state);
    assert AdvanceStage(g, score) == Reveal(swept, g.deck);
  }

  /** Closing a round keeps the chips a state accounts for: a new street keeps the stacks
      and the pot, entering showdown moves the pot into the stacks (less a split pot's odd
      chip), and closing at showdown changes no chip. */
  lemma AdvanceStageKeepsWorth(g: Game, score: Scorer)
    requires Playable(g) && (g.state.stage == Showdown || g.state.winner == None)
    ensures Worth(AdvanceStage(g, score).state) == Worth(g.state)
  {
    if g.state.stage != Showdown {
      AdvanceStageSettles(g, score);
    }
  }

  /** The board keeps pace with the stage: 0, 3, 4 and 5 cards for pre-flop, flop, turn and
      river, and 5 at a showdown reached by playing out the river. */
  lemma AdvanceStageKeepsBoard(g: Game, score: Scorer)
    requires Playable(g) && BoardMatchesStage(g.state)
    ensures BoardMatchesStage(AdvanceStage(g, score).state)
  {
    if g.state.stage != Showdown {
      AdvanceStageSetsUpStreet(g, score);
    }
  }

  /** Advancing the street moves cards from the deck to the board (and burns some); it never
      duplicates one. */
  lemma AdvanceStageKeepsCards(g: Game, score: Scorer)
    requires Playable(g) && CardsAccounted(g)
    ensures var r := AdvanceStage(g, score);
      && multiset(r.deck) + multiset(r.state.communityCards)
         <= multiset(g.deck) + multiset(g.state.communityCards)
      && CardsAccounted(r)
  {
    var r := AdvanceStage(g, score);
    if g.state.stage != Showdown {
      var swept := Sweep(g.state);
      if swept.stage == Showdown {
        assert r == Game(DetermineWinner(swept, score), g.deck);
      } else {
        assert r == Reveal(swept, g.deck);
        RevealKeepsCards(swept, g.deck);
      }
    }
    assert r.state.players[0].hand == g.state.players[0].hand;
    assert r.state.players[1].hand == g.state.players[1].hand;
  }
}
