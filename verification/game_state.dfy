/** The per-game bookkeeping record. Players are referred to by their index
    in the roster. Each setter of the source is a record update
    `s.(field := v)`, which changes that field and no other. */
module GameStates {
  import opened Base

  datatype GameState = GameState(
    running: bool,
    paused: bool,
    gameOver: bool,
    currentPlayer: Option<nat>,
    turnNumber: int,
    currentDiceValue: int,
    winner: Option<nat>,
    currentPlayerIndex: int,
    extraTurn: bool)

  /** The values a game starts from; `currentPlayerIndex` is one before the
      first player so that the first advance selects player 0. */
  predicate IsInitial(s: GameState)
  {
    && !s.running && !s.paused && !s.gameOver
    && s.currentPlayer.None? && s.winner.None?
    && s.turnNumber == 1 && s.currentDiceValue == 0
    && s.currentPlayerIndex == -1 && !s.extraTurn
  }

  /** The state of a freshly created context. */
  function NewGameState(): (s: GameState)
    ensures IsInitial(s)
  {
    GameState(false, false, false, None, 1, 0, None, -1, false)
  }

  /** `reset()`: whatever the state was, every field is back at its initial
      value. */
  function Reset(s: GameState): (r: GameState)
    ensures IsInitial(r)
    ensures r == NewGameState()
  {
    GameState(false, false, false, None, 1, 0, None, -1, false)
  }

  /** There is exactly one initial state, so a reset state and a fresh one
      cannot be told apart. */
  lemma InitialUnique(s: GameState, t: GameState)
    requires IsInitial(s) && IsInitial(t)
    ensures s == t
  {
  }
}
