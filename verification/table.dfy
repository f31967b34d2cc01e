/** The records of one heads-up hand: players, the shared game state, and the engine's deck. */
module Table {
  import opened Cards

  datatype Option<T> = None | Some(value: T)

  /** What a rejected call reports: an id no seat carries, an action out of turn, a dealer
      position that indexes no seat, or (in the guarded entry point of the Findings module
      only) an action after the hand has been settled. */
  datatype Error = PlayerNotFound | NotYourTurn | DealerOutOfRange | GameOver

  datatype Result<T> = Ok(value: T) | Err(error: Error)

  /** The two seat identities, and the winner value that means a split pot. */
  const UserId: string := "user"
  const BotId: string := "bot"
  const TieId: string := "tie"

  /** The blinds are fixed for every hand. */
  const SmallBlind: int := 10
  const BigBlind: int := 20

  datatype Stage = PreFlop | Flop | Turn | River | Showdown

  /** The descriptive label shown to observers after a player's action. */
  datatype LastAction = Folded | Called | Checked | RaisedTo(total: int)

  datatype Player = Player(
    id: string,
    chips: int,
    hand: seq<Card>,
    currentBet: int,
    hasActed: bool,
    folded: bool,
    lastAction: Option<LastAction>)

  /** The snapshot observers see. `pot` already holds every chip committed this street. */
  datatype GameState = GameState(
    gameId: string,
    players: seq<Player>,
    communityCards: seq<Card>,
    pot: int,
    stage: Stage,
    currentPlayerId: Option<string>,
    currentBetToMatch: int,
    lastRaiserId: Option<string>,
    dealerPosition: nat,
    winner: Option<string>,
    gameOver: bool)

  /** The engine: the public state plus the undealt deck, whose end is its top. */
  datatype Game = Game(state: GameState, deck: seq<Card>)

  /** The position of the first player carrying `id`, if any. */
  function IndexOf(players: seq<Player>, id: string): (r: Option<nat>)
    ensures r.Some? ==> r.value < |players| && players[r.value].id == id
    ensures r.Some? ==> forall j :: 0 <= j < r.value ==> players[j].id != id
    ensures r.None? <==> forall j :: 0 <= j < |players| ==> players[j].id != id
  {
    if |players| == 0 then None
    else if players[0].id == id then Some(0)
    else
      match IndexOf(players[1..], id)
      case None => None
      case Some(k) => Some(k + 1)
  }

  /** The seating every game has: the user in seat 0, the bot in seat 1, and a dealer
      position that names one of them. */
  predicate TwoSeats(s: GameState) {
    && |s.players| == 2
    && s.players[0].id == UserId
    && s.players[1].id == BotId
    && s.dealerPosition < 2
  }

  /** The shape every dealt state keeps: two seats and a player to act who is one of them. */
  predicate Seated(s: GameState) {
    && TwoSeats(s)
    && (s.currentPlayerId == Some(UserId) || s.currentPlayerId == Some(BotId))
  }

  /** The seat that carries a known id. */
  function SeatOf(id: string): nat {
    if id == UserId then 0 else 1
  }

  lemma IndexOfSeated(s: GameState, id: string)
    requires TwoSeats(s)
    ensures id == UserId ==> IndexOf(s.players, id) == Some(0)
    ensures id == BotId ==> IndexOf(s.players, id) == Some(1)
    ensures id != UserId && id != BotId ==> IndexOf(s.players, id) == None
  {
  }

  /** The chips left in the players' stacks. */
  function ChipSum(ps: seq<Player>): int {
    if |ps| == 0 then 0 else ps[0].chips + ChipSum(ps[1..])
  }

  /** Every chip on the table: both stacks plus the pot (which already holds the bets). */
  function Bankroll(s: GameState): int {
    ChipSum(s.players) + s.pot
  }

  lemma ChipSumPair(ps: seq<Player>)
    requires |ps| == 2
    ensures ChipSum(ps) == ps[0].chips + ps[1].chips
  {
    assert ps[1..][1..] == [];
    assert ChipSum(ps[1..]) == ps[1].chips + ChipSum(ps[1..][1..]);
  }

  /** The number of players still in the hand. */
  function ActiveCount(ps: seq<Player>): nat {
    if |ps| == 0 then 0 else (if ps[0].folded then 0 else 1) + ActiveCount(ps[1..])
  }

  lemma ActiveCountPair(ps: seq<Player>)
    requires |ps| == 2
    ensures ActiveCount(ps) == (if ps[0].folded then 0 else 1) + (if ps[1].folded then 0 else 1)
  {
    assert ps[1..][1..] == [];
    assert ActiveCount(ps[1..]) == (if ps[1].folded then 0 else 1) + ActiveCount(ps[1..][1..]);
  }

  /** The position of a stage in the order pre-flop, flop, turn, river, showdown. */
  function StageIndex(st: Stage): nat {
    match st
    case PreFlop => 0
    case Flop => 1
    case Turn => 2
    case River => 3
    case Showdown => 4
  }

  function NextStage(st: Stage): (r: Stage)
    requires st != Showdown
    ensures StageIndex(r) == StageIndex(st) + 1
  {
    match st
    case PreFlop => Flop
    case Flop => Turn
    case Turn => River
    case River => Showdown
  }

  /** How many community cards are face up once a stage has been dealt. */
  function BoardSize(st: Stage): nat {
    match st
    case PreFlop => 0
    case Flop => 3
    case Turn => 4
    case River => 5
    case Showdown => 5
  }

  /** How many cards later streets still take from the deck (a burn and the reveals). */
  function CardsStillNeeded(st: Stage): nat {
    match st
    case PreFlop => 8
    case Flop => 4
    case Turn => 2
    case River => 0
    case Showdown => 0
  }

  /** A game the engine can run: seats in shape and enough cards for the streets to come. */
  predicate Playable(g: Game) {
    Seated(g.state) && |g.deck| >= CardsStillNeeded(g.state.stage)
  }

  /** Somebody has folded this hand. */
  predicate AnyFolded(s: GameState)
    requires |s.players| == 2
  {
    s.players[0].folded || s.players[1].folded
  }

  /** The community cards match the stage, except after a fold ended the hand early. */
  predicate BoardMatchesStage(s: GameState)
    requires |s.players| == 2
  {
    |s.communityCards| == BoardSize(s.stage) || (s.stage == Showdown && AnyFolded(s))
  }

  /** Every card in play: the deck, the board and both hands. */
  function CardsInPlay(g: Game): multiset<Card>
    requires |g.state.players| == 2
  {
    multiset(g.deck) + multiset(g.state.communityCards)
    + multiset(g.state.players[0].hand) + multiset(g.state.players[1].hand)
  }

  /** No card has been duplicated: what is in play is part of one fresh deck. */
  predicate CardsAccounted(g: Game)
    requires |g.state.players| == 2
  {
    CardsInPlay(g) <= multiset(FreshDeck())
  }

  /** `r` differs from `s` at most in chips, bets, flags and labels: ids and hands are kept. */
  predicate SameSeats(s: GameState, r: GameState) {
    && |r.players| == |s.players|
    && forall j :: 0 <= j < |s.players| ==>
         r.players[j].id == s.players[j].id && r.players[j].hand == s.players[j].hand
  }
}
