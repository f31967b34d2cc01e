/** The three verbs a player can apply on their turn, and the test that closes a betting round. */
module Betting {
  import opened Table

  /** What a call moves from the stack to the bet: the amount owed, capped at the stack.
      The amount owed is negative when the bet to match has fallen below the player's own
      bet, and then chips move back from the pot to the stack. */
  function CallAmount(p: Player, toMatch: int): int {
    var owed := toMatch - p.currentBet;
    if owed > p.chips then p.chips else owed
  }

  /** `call` (also used as a check when nothing is owed): the player pays what is owed or,
      if the stack is short, the whole stack. */
  function Call(s: GameState, i: nat): (r: GameState)
    requires TwoSeats(s) && i < 2
    ensures TwoSeats(r) && SameSeats(s, r)
    ensures var p, q, owed := s.players[i], r.players[i], s.currentBetToMatch - s.players[i].currentBet;
      && q.chips + q.currentBet == p.chips + p.currentBet
      && r.pot - s.pot == q.currentBet - p.currentBet
      && (owed <= p.chips ==> q.currentBet == s.currentBetToMatch)
      && (owed > p.chips ==> q.chips == 0)
      && q.hasActed && q.folded == p.folded
      && q.lastAction == Some(if owed > 0 then Called else Checked)
    ensures r.players[1 - i] == s.players[1 - i]
    ensures r == s.(players := r.players, pot := r.pot)
    ensures Bankroll(r) == Bankroll(s)
  {
    var p := s.players[i];
    var owed := s.currentBetToMatch - p.currentBet;
    var amount := CallAmount(p, s.currentBetToMatch);
    var q := p.(chips := p.chips - amount,
                currentBet := p.currentBet + amount,
                hasActed := true,
                lastAction := Some(if owed > 0 then Called else Checked));
    var r := s.(players := s.players[i := q], pot := s.pot + amount);
    ChipSumPair(s.players);
    ChipSumPair(r.players);
    r
  }

  /** The bet a `raise` ends at: the request, raised to twice the bet to match and then
      capped at everything the player has (stack plus current bet). */
  function RaiseTarget(p: Player, toMatch: int, amount: int): int {
    var atLeast := if amount < toMatch * 2 then toMatch * 2 else amount;
    if atLeast > p.chips + p.currentBet then p.chips + p.currentBet else atLeast
  }

  /** `raise`: the requested total is clamped, never refused. The raiser's new bet becomes the
      bet to match (even when the stack cap makes it smaller than before) and the opponent
      must act again. */
  function Raise(s: GameState, i: nat, amount: int): (r: GameState)
    requires TwoSeats(s) && i < 2
    ensures TwoSeats(r) && SameSeats(s, r)
    ensures var p, q, toMatch := s.players[i], r.players[i], s.currentBetToMatch;
      var stack := p.chips + p.currentBet;
      && q.chips >= 0
      && (toMatch * 2 <= amount <= stack ==> q.currentBet == amount)
      && (amount <= toMatch * 2 <= stack ==> q.currentBet == toMatch * 2)
      && (stack <= amount || stack <= toMatch * 2 ==> q.chips == 0)
      && q.chips + q.currentBet == stack
      && r.pot - s.pot == q.currentBet - p.currentBet
      && q.hasActed && q.folded == p.folded
      && q.lastAction == Some(RaisedTo(q.currentBet))
      && r.currentBetToMatch == q.currentBet
      && r.lastRaiserId == Some(p.id)
      && (toMatch >= 0 ==> (r.currentBetToMatch < toMatch <==> stack < toMatch))
    ensures r.players[1 - i] == s.players[1 - i].(hasActed := false)
    ensures r == s.(players := r.players, pot := r.pot, currentBetToMatch := r.currentBetToMatch,
                    lastRaiserId := r.lastRaiserId)
    ensures Bankroll(r) == Bankroll(s)
  {
    var p := s.players[i];
    var target := RaiseTarget(p, s.currentBetToMatch, amount);
    var added := target - p.currentBet;
    var q := p.(chips := p.chips - added,
                currentBet := p.currentBet + added,
                hasActed := true,
                lastAction := Some(RaisedTo(p.currentBet + added)));
    var o := 1 - i;
    var others := s.players[o := s.players[o].(hasActed := false)];
    var r := s.(players := others[i := q],
                pot := s.pot + added,
                currentBetToMatch := q.currentBet,
                lastRaiserId := Some(p.id));
    ChipSumPair(s.players);
    ChipSumPair(r.players);
    r
  }

  /** `fold`: the player leaves the hand; no chips move. */
  function Fold(s: GameState, i: nat): (r: GameState)
    requires TwoSeats(s) && i < 2
    ensures TwoSeats(r) && SameSeats(s, r)
    ensures r.players[i].folded && r.players[i].lastAction == Some(Folded)
    ensures r.players[i] == s.players[i].(folded := true, lastAction := r.players[i].lastAction)
    ensures r.players[1 - i] == s.players[1 - i]
    ensures r == s.(players := r.players)
    ensures ActiveCount(r.players) == ActiveCount(s.players) - (if s.players[i].folded then 0 else 1)
    ensures Bankroll(r) == Bankroll(s)
  {
    var r := s.(players := s.players[i := s.players[i].(folded := true, lastAction := Some(Folded))]);
    ChipSumPair(s.players);
    ChipSumPair(r.players);
    ActiveCountPair(s.players);
    ActiveCountPair(r.players);
    r
  }

  /** The big blind may still act although the bets are level: the bet to match is one big
      blind, the big blind is the player to act and has not acted this street. */
  predicate BigBlindOptionPending(s: GameState)
    requires TwoSeats(s)
  {
    var bb := s.players[(s.dealerPosition + 1) % 2];
    s.currentBetToMatch == BigBlind && s.currentPlayerId == Some(bb.id) && !bb.hasActed
  }

  /** The betting round is over when at most one player is left, or when every player left
      has acted, all their bets are level and the big-blind option is not pending. With two
      seats, "every player left" is both seats as soon as two are left. */
  predicate RoundOver(s: GameState)
    requires TwoSeats(s)
  {
    ActiveCountPair(s.players);
    if ActiveCount(s.players) <= 1 then true
    else
      var firstBet := s.players[0].currentBet;
      && s.players[0].hasActed && s.players[1].hasActed
      && s.players[0].currentBet == firstBet && s.players[1].currentBet == firstBet
      && !BigBlindOptionPending(s)
  }

  /** The round test in plain terms: somebody folded, or both have acted with level bets.
      The big-blind option never decides it: while it is pending the big blind has not
      acted, which already keeps the round open. */
  lemma RoundOverIgnoresOption(s: GameState)
    requires TwoSeats(s)
    ensures RoundOver(s) <==>
      AnyFolded(s)
      || (s.players[0].hasActed && s.players[1].hasActed
          && s.players[0].currentBet == s.players[1].currentBet)
  {
    ActiveCountPair(s.players);
  }
}
