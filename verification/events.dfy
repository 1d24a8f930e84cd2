/** The events the engine publishes, with the payload each one carries.
    A piece is named by its place in the roster: player index and piece
    index. Descriptions, timestamps and message texts are not modelled;
    a cell effect carries a note saying which message it would show. */
module Events {
  import opened Base

  datatype ChessmanRef = ChessmanRef(player: nat, index: nat)

  /** Which `BlockEffect` message was shown. */
  datatype EffectNote =
    | DepthLimitReached
    | OverEndBounce(steps: int)
    | DestinationProgress(finished: nat, total: nat)
    | LuckyAdvance(steps: int)
    | LuckyExtraTurn
    | LuckyToEnd
    | LuckyNoPrize
    | MineHit
    | SpeedUpFired
    | SlowDownFired
    | Teleported(target: int)

  datatype Event =
    | GameInitialized(playerCount: nat)
    | GameStarted
    | GameStopped
    | GamePaused
    | GameResumed
    | TurnStarted(player: nat)
    | DiceRolled(player: nat, dice: int)
    | EndTurn(dice: int)
    | TurnEnded(player: nat, dice: int, hasExtraTurn: bool)
    | ChessmanTakeOff(c: ChessmanRef)
    | ChessmanMoveEasing(c: ChessmanRef, from: int, to: int)
    | ChessmanMoved(c: ChessmanRef, to: int)
    | ChessmanOverEnd(c: ChessmanRef, target: int, end: int, overSteps: int)
    | BlockEffect(c: ChessmanRef, note: EffectNote)
    | GrantNewTurn(c: ChessmanRef)
    | GameOver(winner: Option<nat>)

  /** The type string listeners subscribe to. */
  datatype EventType =
    | TGameInitialized | TGameStarted | TGameStopped | TGamePaused | TGameResumed
    | TTurnStarted | TDiceRolled | TEndTurn | TTurnEnded
    | TChessmanTakeOff | TChessmanMoveEasing | TChessmanMoved | TChessmanOverEnd
    | TBlockEffect | TGrantNewTurn | TGameOver

  function TypeOf(e: Event): EventType
  {
    match e
    case GameInitialized(_) => TGameInitialized
    case GameStarted => TGameStarted
    case GameStopped => TGameStopped
    case GamePaused => TGamePaused
    case GameResumed => TGameResumed
    case TurnStarted(_) => TTurnStarted
    case DiceRolled(_, _) => TDiceRolled
    case EndTurn(_) => TEndTurn
    case TurnEnded(_, _, _) => TTurnEnded
    case ChessmanTakeOff(_) => TChessmanTakeOff
    case ChessmanMoveEasing(_, _, _) => TChessmanMoveEasing
    case ChessmanMoved(_, _) => TChessmanMoved
    case ChessmanOverEnd(_, _, _, _) => TChessmanOverEnd
    case BlockEffect(_, _) => TBlockEffect
    case GrantNewTurn(_) => TGrantNewTurn
    case GameOver(_) => TGameOver
  }
}
