# Heads-up poker hand engine

A Dafny model of `PokerGame`, the heads-up (two-seat) hold'em hand engine in
`backend/game_logic.py`. The engine deals one hand between the seats `"user"` (seat 0) and
`"bot"` (seat 1). The dealer seat posts the small blind (10) and acts first pre-flop; the
other seat posts the big blind (20). Players act through one entry point with the verbs
`fold`, `call` (also a check when nothing is owed) and `raise` (the requested total is
clamped, never refused). After every action the turn passes, unless a fold ended the hand, and the engine tests
whether the betting round is over. If it is, the hand moves on: pre-flop, flop, turn, river,
showdown, with a burn card before each reveal. Entering showdown settles the pot: a fold
hands it to the opponent, otherwise the lower evaluator score wins, and a tie splits it
rounded down.

The model is functional. `GameState` and `Player` are immutable datatypes, and the engine
is `Game(state, deck)`, whose deck has its top at the end. Every mutating method of the
source is a pure function from one `Game` to the next. Exceptions become a `Result` with
an `Error`. The hand evaluator is a function parameter `score(board, hand)`, where lower is
better. The shuffle and the coin toss are inputs.

Modules, in the order the engine uses them:

- `Cards`: the card record and the fresh 52-card deck.
- `Table`: players, the game state, the seat lookup, the stage order and the bookkeeping
  predicates (`Bankroll` is both stacks plus the pot; `CardsAccounted` says no card is
  duplicated).
- `Dealing`: the constructor and the start of the hand (deal, blinds, roles).
- `Betting`: `Call`, `Raise`, `Fold` and the round-completion test.
- `Settlement`: deciding the winner and paying out. `Worth` is the chips a state accounts
  for: stacks plus pot before settlement, and stacks plus a split pot's dropped chip after.
- `Streets`: advancing the stage.
- `Engine`: passing the turn and the action entry point `HandleAction`.
- `Findings`: two defects of the entry point as written, and a guarded entry point `Act`
  without them.

## Model

| member | source | states |
|---|---|---|
| Cards.FreshDeckDistinct | backend/game_logic.py:42-44 | the deck built from 13 ranks and 4 suits has no card twice |
| Cards.FreshDeckComplete | backend/game_logic.py:42-44 | a card is in the fresh deck exactly when its rank is one of the 13 ranks and its suit one of the 4 suits |
| Cards.DistinctHasNoRepeats | backend/game_logic.py:44 | a list with no card at two positions holds every card at most once as a multiset |
| Cards.NoRepeatsIsDistinct | backend/game_logic.py:44 | the converse: at most one copy of every card means no card at two positions |
| Cards.ShuffleHasNoRepeats | backend/game_logic.py:88-89 | any shuffle of the fresh deck has 52 cards and no duplicate |
| Cards.PartOfDeckHasNoRepeats | backend/game_logic.py:88-89 | any part of the fresh deck holds no card twice |
| Table.IndexOf | backend/game_logic.py:116-120 | the lookup returns the first seat with the id, and finds nothing exactly when no seat has it |
| Table.IndexOfSeated | backend/game_logic.py:116-120 | in the two-seat table `"user"` is seat 0, `"bot"` is seat 1, and any other id is not found |
| Table.NextStage | backend/game_logic.py:154-174 | the next stage is one step later in the order pre-flop, flop, turn, river, showdown |
| Dealing.ClearHand | backend/game_logic.py:76-82 | a new hand keeps the id and the stack and empties the hand, bet and flags |
| Dealing.NextDealer | backend/game_logic.py:72-74 | the dealer moves to the other seat exactly when the previous hand left a pot |
| Dealing.StartHand | backend/game_logic.py:71-114 | dealer seat: 2 cards off the top, stack down 10, bet 10, first to act; other seat: the next 2 cards, stack down 20, bet 20, last raiser; empty board, pot 30, bet to match 20, pre-flop, no winner, stacks plus pot equal the old stacks |
| Dealing.StartHandKeepsCards | backend/game_logic.py:97-99 | the dealt hands plus the remaining deck are exactly the shuffled deck |
| Dealing.StartState | backend/game_logic.py:47-65 | the constructor's seats are user then bot; the user's stack is `user_chips` and the bot's `bot_chips`, each defaulting to the starting chips; both seats have empty hands, no bet, and have neither acted nor folded; the game id is the given one, the game is not over and has no winner, the pot is empty and the dealer is the chosen one |
| Dealing.StartHandFromShuffle | backend/game_logic.py:88-99 | a hand dealt from a shuffle leaves 48 distinct cards in the deck, duplicates no card and is playable |
| Dealing.NewGame | backend/game_logic.py:41-66 | construction fails, with `DealerOutOfRange`, exactly when the dealer position is neither `-1` nor a valid Python index (-2..1) of the two seats |
| Dealing.NewGameStarts | backend/game_logic.py:56-66 | a valid dealer position deals the first hand with that seat as dealer (`-1` uses the coin, `-2` is seat 0) and no rotation |
| Dealing.NewGameDealsHand | backend/game_logic.py:41-66 | a new game carries the given game id and is not over; it is a playable pre-flop hand whose board matches its stage, whose cards are all from one deck, and whose stacks plus pot are the two starting stacks |
| Betting.Call | backend/game_logic.py:230-241 | the caller pays what is owed, or the whole stack if that is less; bet and pot grow by what the stack loses; the caller is marked as acted and labelled Call or Check; chips are conserved |
| Betting.Raise | backend/game_logic.py:243-261 | the new bet is the request clamped to at least twice the bet to match and at most stack plus bet; it becomes the bet to match (below the old one exactly when the stack is short); the raiser is last raiser and has acted, the opponent must act again; chips are conserved |
| Betting.Fold | backend/game_logic.py:226-228 | only the folder's folded flag and label change, one fewer player is left, no chip moves |
| Betting.RoundOverIgnoresOption | backend/game_logic.py:134-152 | the round is over exactly when somebody folded or both acted with level bets; the big-blind option never changes the answer |
| Settlement.DetermineWinner | backend/game_logic.py:185-216 | a folded user loses to the bot and vice versa without the evaluator; otherwise the strictly lower score wins the pot and equal scores give each half the pot rounded down; only stacks and the winner change, and the stacks gain the pot less a split pot's odd chip |
| Settlement.TieDropsOddChip | backend/game_logic.py:213-216 | on a tie with an odd pot the stacks grow by one chip less than the pot |
| Streets.NewStreet | backend/game_logic.py:162-165 | a live player starts the street with no bet and not acted; a folded player is untouched |
| Streets.Sweep | backend/game_logic.py:162-174 | a new street clears live bets, the bet to match and the last raiser, gives the dealer seat the turn, moves the stage on by one, and keeps every chip |
| Streets.Reveal | backend/game_logic.py:176-181 | the top card is burned and the next 3 (flop) or 1 (turn, river) are appended to the board in the order they come off the deck, top first; the old board is kept as a prefix, and the deck is what lies under them |
| Streets.ReversedKeepsCards | backend/game_logic.py:178 | the cards popped off the end of the deck, listed top first, are the same cards as that part of the deck |
| Streets.RevealKeepsCards | backend/game_logic.py:176-181 | the revealed cards come off the deck: deck plus board never gains a card |
| Streets.AdvanceStage | backend/game_logic.py:154-183 | advancing keeps the seats, pot and fold flags; at showdown it only sets game over; otherwise the stage moves on by one |
| Streets.AdvanceStageSetsUpStreet | backend/game_logic.py:162-181 | the new street has no bet to match, no raiser, the dealer to act and live players reset; before showdown the step is exactly `Reveal` of the swept state: the top card is burned, the next 3, 1 or 1 cards are appended to the board top first, and the deck is what lies under them |
| Streets.AdvanceStageSettles | backend/game_logic.py:173-183 | before showdown no chip and no winner changes; entering showdown is exactly `DetermineWinner` of the swept state with the deck untouched, so the fold or the lower score decides the winner and the pot goes into the stacks less a split pot's odd chip |
| Streets.AdvanceStageKeepsStacks | backend/game_logic.py:162-181 | a new flop, turn or river keeps both stacks |
| Streets.AdvanceStageKeepsWorth | backend/game_logic.py:154-183 | closing a round never creates or destroys chips that the state still accounts for |
| Streets.AdvanceStageKeepsBoard | backend/game_logic.py:173-181 | the board keeps matching the stage: 0, 3, 4, 5 and 5 cards |
| Streets.AdvanceStageKeepsCards | backend/game_logic.py:176-181 | advancing duplicates no card |
| Engine.AdvanceTurn | backend/game_logic.py:122-132 | with one player left the stage becomes showdown and the hand is settled with the turn unchanged; otherwise only the turn moves, to the other seat |
| Engine.ClearLabel | backend/game_logic.py:223-224 | only the opponent's last-action label is cleared |
| Engine.ApplyVerb | backend/game_logic.py:226-261 | a verb keeps the seats, stage, board, winner and turn, and conserves chips; no verb but `fold` changes a fold flag, and no verb unfolds a player |
| Engine.ApplyVerbDispatch | backend/game_logic.py:226-261 | `fold` applies `Fold`, `call` applies `Call`, `raise` applies `Raise` with the requested amount, and any other verb changes nothing |
| Engine.Respond | backend/game_logic.py:218-263 | responding keeps the seats, the board, the game id and the dealer, and leaves a seat to act |
| Engine.RespondEndsOnlyByFold | backend/game_logic.py:122-263 | nobody is unfolded, and the stage or winner changes only when a fold ends the hand at showdown with a winner |
| Engine.RespondConservesChips | backend/game_logic.py:226-263 | before settlement a response keeps the chips the state accounts for |
| Engine.Play | backend/game_logic.py:263-266 | an accepted action leaves a playable game with the same seats, game id and dealer |
| Engine.PlayAdvancesIffRoundOver | backend/game_logic.py:263-266 | after the response the stage is advanced exactly when the round test holds; otherwise the response is the whole step and the deck is untouched |
| Engine.HandleAction | backend/game_logic.py:218-266 | the action fails exactly when the id is unknown (`PlayerNotFound`) or not the player to act (`NotYourTurn`), and otherwise is the accepted step for that seat |
| Engine.HandleActionConservesChips | backend/game_logic.py:218-266 | before settlement an action keeps stacks plus pot; the settling action moves the pot into the stacks less a split pot's odd chip |
| Engine.PlayConservesChips | backend/game_logic.py:218-266 | the accepted step keeps the chips the state accounts for |
| Engine.HandleActionKeepsBoard | backend/game_logic.py:218-266 | after any action the board matches the stage, unless a fold ended the hand early |
| Engine.PlayKeepsBoard | backend/game_logic.py:263-266 | the accepted step keeps the board matching the stage |
| Engine.HandleActionKeepsCards | backend/game_logic.py:218-266 | no action duplicates a card |
| Engine.PlayKeepsCards | backend/game_logic.py:263-266 | the accepted step duplicates no card |
| Engine.HandleActionStageOrder | backend/game_logic.py:218-266 | the stage never moves back; it stays, moves on by exactly one, or jumps to showdown when a fold ends the hand |
| Engine.PlayStageOrder | backend/game_logic.py:263-266 | the accepted step moves the stage forward by at most one, except a fold's jump to showdown |
| Engine.HandleActionFoldEndsHand | backend/game_logic.py:122-228 | a fold while both are in gives the opponent the whole pot, records the winner, ends the game and deals no card |
| Findings.PassTurn | backend/game_logic.py:122-132 | a bare pass only clears the opponent's label and gives them the turn |
| Findings.PlayCheck | backend/game_logic.py:226-266 | `check` while someone has not acted is exactly a bare pass of the turn |
| Findings.RespondCall | backend/game_logic.py:230-241 | a covered call pays what is owed into the pot and passes the turn |
| Findings.PlayCallWaits | backend/game_logic.py:263-266 | a covered call before the opponent acted keeps the round open |
| Findings.RespondCallLevels | backend/game_logic.py:134-241 | a covered call after the opponent matched levels the bets and closes the round |
| Findings.PlayCallCloses | backend/game_logic.py:154-183 | such a call moves the stage on by one, resets the bet to match and deals the street |
| Findings.PlayShortCallStaysOpen | backend/game_logic.py:230-266 | a call the stack cannot cover, against a matched bet, puts the caller all in with a smaller bet than the opponent, so the round stays open on the same stage and the turn passes |
| Findings.PlayRaise | backend/game_logic.py:243-266 | a raise with both players in keeps the stage, winner and board, sets the raiser's bet and the bet to match to the clamped target, makes the raiser the last raiser, gives the turn to the opponent who must act again, and keeps every chip on the table |
| Findings.PlayFold | backend/game_logic.py:122-228 | a fold against a live opponent pays them the pot and ends the game, even when the folder had already folded |
| Findings.CheckOnlyPassesTurn | backend/game_logic.py:226-261 | as written, `check` applies no verb: it only passes the turn |
| Findings.ScenarioStart | backend/game_logic.py:41-114 | 1000-chip stacks with the user dealing give 990/980, bets 10/20, pot 30 and the user to act |
| Findings.AfterDealerCalls | backend/game_logic.py:230-266 | the dealer's opening call gives 980/980, pot 40, the big blind to act and not yet acted |
| Findings.ScenarioCheckAsWritten | backend/game_logic.py:226-266 | as written, the big blind's check leaves the hand pre-flop with the big blind still not acted |
| Findings.FoldAgainPaysAgain | backend/game_logic.py:218-228 | as written, a second fold by the folder pays the pot again and creates chips |
| Findings.AfterDealerFolds | backend/game_logic.py:191-228 | the dealer's opening fold pays the big blind 30 and leaves the turn with the dealer |
| Findings.ScenarioFoldTwice | backend/game_logic.py:218-228 | as written, folding twice ends the opening hand with 2030 chips out of 2000 |
| Findings.Verb | backend/game_logic.py:230-235 | the guarded entry point reads `check` as `call` and passes every other verb through unchanged |
| Findings.Act | backend/game_logic.py:218-266 | the guarded entry point refuses any action after settlement and otherwise is the source's entry point with `check` read as `call` |
| Findings.FirstCheckActs | backend/game_logic.py:230-241 | with the guard, a first check on a level street marks the checker as acted and passes the turn |
| Findings.TwoChecksCloseStreet | backend/game_logic.py:263-266 | with the guard, two checks on a level street move the stage on |
| Findings.ScenarioCheckCorrected | backend/game_logic.py:176-266 | with the guard, the opening call and check deal the flop: 3 cards, pot 40, dealer to act |
| Findings.ActConservesWorth | backend/game_logic.py:218-266 | with the guard, no accepted action changes the chips the state accounts for |
| Findings.Run | backend/game_logic.py:218-266 | a sequence of moves through the guarded entry point keeps the game playable |
| Findings.RunConservesChips | backend/game_logic.py:218-266 | with the guard, no sequence of moves creates chips |
| Findings.NewGameRunConservesChips | backend/game_logic.py:41-266 | from a new game, after any sequence of guarded moves the chips the state accounts for (the stacks and pot, or once settled the stacks plus a split pot's dropped chip) equal the two starting stacks |

## Left out

- The hand evaluator (the `deuces` `Evaluator` and card conversion) is a foreign library. It is the parameter `score`, any total function of board and hand, where lower is better.
- `random.shuffle` and `random.randint` are inputs: the shuffled deck, which must be a permutation of the fresh deck, and the coin, 0 or 1.
- The shuffle in the constructor is not modelled. The deck it builds is discarded when the first hand rebuilds and reshuffles it, so only that second shuffle is an input.
- `print` and `get_state` are not modelled, since they have no effect on the state.
- The pydantic `BaseModel` machinery becomes plain datatypes.
- `is_all_in` is not modelled because it is only ever reset, never read.
- `small_blind` and `big_blind` are constants (10 and 20) rather than state fields, since nothing changes them.
- Mutation in place is modelled as a new value. The exceptions raised for an unknown id, an action out of turn, and a dealer position that indexes no seat become `Err` values, and nothing is changed in those cases.
- Dealing.NewGame: a dealer position of `-2` is stored as seat 0. The source stores `-2` and indexes with it, which reaches the same seat everywhere it is used.
- The last-action labels are constructors rather than strings: `"Fold"`, `"Call"` and `"Check"` are `Folded`, `Called` and `Checked`, and `"Raise to $N"` is `RaisedTo(N)`.
- The RL environments, the training loops and the HTTP glue are not part of this model.
- Dealer rotation is modelled (`NextDealer`), but `StartHand` is only reached from the constructor, where the pot is empty, so the dealer never rotates.
- Findings.CheckOnlyPassesTurn: states one check at a time. The claim that repeated checks never close a street is not stated as an induction over runs.

## Findings

| source | as written | input that shows it | evidently intended | confidence | as-written member | corrected member |
|---|---|---|---|---|---|---|
| backend/game_logic.py:226-261 | the verb `check` matches none of `fold`, `call` and `raise`. It only clears the opponent's label and passes the turn, without marking the checker as having acted | new game with 1000-chip stacks and the user dealing: the user sends `call`, then the bot sends `check`. The hand stays pre-flop and the bot is still marked as not having acted | `check` is a call with nothing owed, as the engine's own `Check` label and the callers in backend/enigma_env.py:169-182 (which send `check` when nothing is owed) assume. Then the big blind's check closes the pre-flop round and deals the flop | medium, not executed | Findings.CheckOnlyPassesTurn, Findings.ScenarioCheckAsWritten | Findings.Act, Findings.TwoChecksCloseStreet, Findings.ScenarioCheckCorrected |
| backend/game_logic.py:218-228 | nothing rejects an action once the hand is settled. After a fold, the turn stays with the folder, and folding again pays the pot to the opponent a second time | new game with 1000-chip stacks and the user dealing: the user sends `fold` twice. The bot ends with 1040 chips and the table holds 2030 chips of the 2000 | actions are refused once a winner is set, so no chips are created | high, not executed | Findings.FoldAgainPaysAgain, Findings.ScenarioFoldTwice | Findings.Act, Findings.ActConservesWorth, Findings.RunConservesChips, Findings.NewGameRunConservesChips |
