/** The process-wide game context: the state record, the providers, the
    roster and the board it hands out, and the event bus, which is fixed
    for the life of the process. Objects the context only stores are
    represented by what identifies them. */
module GameContexts {
  import opened Base
  import opened Entities
  import opened GameStates
  import opened EventBus
  import opened MapProviders

  /** The user interfaces the program ships. */
  datatype UserInterface = Tui | Gui

  /** A rule set provider, known by its registered name. */
  datatype RuleSetProvider = RuleSetProvider(name: string)

  /** A board object; its only state is the dispatch depth, which lives
      with the engine. */
  datatype BoardHandle = BoardHandle

  datatype Context = Context(
    state: GameState,
    mapProvider: Option<MapProvider>,
    ruleSetProvider: Option<RuleSetProvider>,
    userInterface: Option<UserInterface>,
    players: Option<seq<Player>>,
    board: Option<BoardHandle>,
    bus: Bus)

  /** The context as the class loader creates it: a fresh state, nothing
      set, and the bus. */
  function NewContext(bus: Bus): (ctx: Context)
    ensures IsInitial(ctx.state) && ctx.bus == bus
    ensures ctx.mapProvider.None? && ctx.ruleSetProvider.None? && ctx.userInterface.None?
    ensures ctx.players.None? && ctx.board.None?
  {
    Context(NewGameState(), None, None, None, None, None, bus)
  }

  /** `getCurrentPlayer()`. */
  function CurrentPlayer(ctx: Context): Option<nat>
  {
    ctx.state.currentPlayer
  }

  /** `getCurrentTurnNumber()`. */
  function CurrentTurnNumber(ctx: Context): int
  {
    ctx.state.turnNumber
  }

  /** `getCurrentDiceValue()`. */
  function CurrentDiceValue(ctx: Context): int
  {
    ctx.state.currentDiceValue
  }

  /** `getEventBus()`. */
  function EventBusOf(ctx: Context): Bus
  {
    ctx.bus
  }

  /** `reset()`: only the state is reset; providers, interface, roster,
      board and bus are kept. */
  function ResetContext(ctx: Context): (r: Context)
    ensures IsInitial(r.state)
    ensures r.(state := ctx.state) == ctx
  {
    ctx.(state := Reset(ctx.state))
  }

  /** `clear()`: every stored object is dropped and the state is reset;
      the bus stays. */
  function ClearContext(ctx: Context): (r: Context)
    ensures r == NewContext(ctx.bus)
  {
    ResetContext(ctx.(mapProvider := None, ruleSetProvider := None, userInterface := None,
                      players := None, board := None))
  }

  /** After `reset` or `clear` the delegating getters read the initial
      values: no current player, turn 1, dice 0; and the bus is the same
      one before and after either, so every holder of it keeps seeing the
      same subscriptions. */
  lemma GettersAfterReset(ctx: Context)
    ensures CurrentPlayer(ResetContext(ctx)).None? && CurrentPlayer(ClearContext(ctx)).None?
    ensures CurrentTurnNumber(ResetContext(ctx)) == 1 && CurrentTurnNumber(ClearContext(ctx)) == 1
    ensures CurrentDiceValue(ResetContext(ctx)) == 0 && CurrentDiceValue(ClearContext(ctx)) == 0
    ensures EventBusOf(ResetContext(ctx)) == EventBusOf(ctx) && EventBusOf(ClearContext(ctx)) == EventBusOf(ctx)
  {
  }

  /** Clearing forgets everything but the bus: two contexts sharing a bus
      clear to the same context, and a cleared context is its own reset
      and its own clear. */
  lemma ClearForgets(a: Context, b: Context)
    requires a.bus == b.bus
    ensures ClearContext(a) == ClearContext(b)
    ensures ResetContext(ClearContext(a)) == ClearContext(a)
    ensures ClearContext(ClearContext(a)) == ClearContext(a)
  {
  }

  /** Resetting twice is resetting once, and a reset context clears to the
      same context as the original. */
  lemma ResetIdempotent(ctx: Context)
    ensures ResetContext(ResetContext(ctx)) == ResetContext(ctx)
    ensures ClearContext(ResetContext(ctx)) == ClearContext(ctx)
  {
  }
}
