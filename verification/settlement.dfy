/** Deciding who wins the hand and paying out the pot. */
module Settlement {
  import opened Cards
  import opened Table

  /** The hand evaluator is a collaborator: it scores a hand against the board, and a lower
      score is a better hand. Any total function of that shape may stand for it. */
  type Scorer = (seq<Card>, seq<Card>) -> int

  /** Settle the hand. A fold hands the other player the whole pot without consulting the
      evaluator; otherwise the strictly lower score takes the whole pot, and equal scores
      give each player half of it rounded down. The pot itself is left as it was. */
  function DetermineWinner(s: GameState, score: Scorer): (r: GameState)
    requires TwoSeats(s)
    ensures TwoSeats(r) && SameSeats(s, r)
    ensures r == s.(players := r.players, winner := r.winner)
    ensures r.winner == Some(UserId) || r.winner == Some(BotId) || r.winner == Some(TieId)
    ensures forall j :: 0 <= j < 2 ==> r.players[j] == s.players[j].(chips := r.players[j].chips)
    ensures var u, b, board := s.players[0], s.players[1], s.communityCards;
      && (u.folded ==> r.winner == Some(BotId))
      && (!u.folded && b.folded ==> r.winner == Some(UserId))
      && (!u.folded && !b.folded ==>
            && (r.winner == Some(UserId) <==> score(board, u.hand) < score(board, b.hand))
            && (r.winner == Some(BotId) <==> score(board, b.hand) < score(board, u.hand)))
    ensures r.winner == Some(UserId) ==>
      r.players[0].chips == s.players[0].chips + s.pot && r.players[1].chips == s.players[1].chips
    ensures r.winner == Some(BotId) ==>
      r.players[1].chips == s.players[1].chips + s.pot && r.players[0].chips == s.players[0].chips
    ensures r.winner == Some(TieId) ==>
      r.players[0].chips == s.players[0].chips + s.pot / 2
      && r.players[1].chips == s.players[1].chips + s.pot / 2
    ensures ChipSum(r.players) + OddChip(r) == Bankroll(s)
  {
    var user := s.players[0];
    var bot := s.players[1];
    var r :=
      if user.folded then
        s.(winner := Some(bot.id), players := s.players[1 := bot.(chips := bot.chips + s.pot)])
      else if bot.folded then
        s.(winner := Some(user.id), players := s.players[0 := user.(chips := user.chips + s.pot)])
      else
        var userScore := score(s.communityCards, user.hand);
        var botScore := score(s.communityCards, bot.hand);
        if userScore < botScore then
          s.(winner := Some(user.id), players := s.players[0 := user.(chips := user.chips + s.pot)])
        else if botScore < userScore then
          s.(winner := Some(bot.id), players := s.players[1 := bot.(chips := bot.chips + s.pot)])
        else
          s.(winner := Some(TieId),
             players := [user.(chips := user.chips + s.pot / 2), bot.(chips := bot.chips + s.pot / 2)]);
    ChipSumPair(s.players);
    ChipSumPair(r.players);
    r
  }

  /** The chip a split pot drops: on a tie each player gets half the pot rounded down. */
  function OddChip(s: GameState): nat {
    if s.winner == Some(TieId) then s.pot % 2 else 0
  }

  /** The chips a state accounts for: before settlement the stacks and the pot; after it,
      the stacks and the chip a split pot dropped (the pot is left untouched but is no
      longer owed to anyone). */
  function Worth(s: GameState): int {
    if s.winner.Some? then ChipSum(s.players) + OddChip(s) else Bankroll(s)
  }

  /** On a tie an odd pot loses one chip: the stacks grow by one less than the pot. */
  lemma TieDropsOddChip(s: GameState, score: Scorer)
    requires TwoSeats(s) && !AnyFolded(s)
    requires score(s.communityCards, s.players[0].hand) == score(s.communityCards, s.players[1].hand)
    requires s.pot % 2 == 1
    ensures var r := DetermineWinner(s, score);
      r.winner == Some(TieId) && ChipSum(r.players) == ChipSum(s.players) + s.pot - 1
  {
  }
}
