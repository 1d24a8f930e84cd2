# AeroplaneChessEx engine core in Dafny

This project models the deterministic core of AeroplaneChessEx, a dice race
game in the style of aeroplane chess. Players roll a die, take pieces off
from the hangar on a six, and move them cell by cell along a path. Special
cells (lucky, speed-up, slow-down, teleport, mine, destination) trigger
effects, and those effects can chain.

The game is event driven. A `setPosition` publishes `ChessmanMoved`. The
board's listener then runs the effect of the cell the piece landed on, and
that effect may publish and move again. The depth of that chain is capped by
the rule set. The model keeps that structure:

- `Engine` is one mutually recursive group: publish, deliver to each
  listener in subscription order, the board's dispatch, the rule engine's
  and game engine's handlers, the nine cell effects, and `setPosition`.
- The group works on a `World`. A `World` holds:
  - the game state;
  - the roster;
  - the map provider;
  - the bus;
  - the dispatch depth;
  - the extra-turn flag a cell can raise;
  - the draws of the random generator;
  - the answers the user will give;
  - the trace of events published so far.
- Every member of the group promises `Preserves`:
  - the depth it was entered at is restored;
  - the bus is unchanged;
  - the trace only grows;
  - the roster keeps its shape;
  - the map keeps its layout;
  - the turn bookkeeping is untouched.

Termination is by the remaining depth budget, then an event rank.

Around the engine:

- `EngineFacts`, `RuleFacts` and `EffectFacts` state what each step of a
  chain does.
- `GameEngines` is the turn state machine.
- `EventBus` and `Wiring` cover subscription bookkeeping and the order in
  which the program subscribes its listeners.
- `DefaultRules` is the default rule set.
- `RandomMaps`, `SShapeMap` and `MapProviders` are the two maps.
- `Blocks` holds cell metadata and the `Node` record.
- `Entities` holds pieces and players, and `GameStates` and `GameContexts`
  hold the state record and the context.
- `Boards` covers the board's queries.
- The front end:
  - `PluginRegistry` is the plugin name registry;
  - `PlayerSetup` is the validation loops of `createPlayers`;
  - `Cli` is `parseArgs` with its defaults, plus `loadUI`.
  - `loadRuleSet` and `loadMapProvider` of `ServiceLoader` are the
    registry lookups `PluginRegistry.GetRuleSetProvider` and
    `PluginRegistry.GetMapProvider`.

Outside inputs are explicit parameters:

- The random generator is a stream of draws; `nextInt(bound)` takes the
  next draw modulo `bound`, and an exhausted stream answers 0.
- The user's answers are a stream of integers (choices) or strings
  (setup answers), read the way the text interface reads its input
  lines. A setup answer is a line as `getUserInput` returns it, already
  trimmed (src/ui/tui/TUI.java:142): `" 3 "` arrives as `"3"`, and a name
  of spaces only arrives empty. A choice prompt re-asks until it reads an index into its
  options (`Base.ChooseIndex`); a line that is empty or not a number is
  re-asked just like an out-of-range number. Running out of answers is
  the end of input: the prompt throws, the bus swallows the exception,
  and the handler that asked stops there (`Engine.OnDiceRolled`, and the
  prompts of the Mine, Teleport and Lucky cells through
  `Base.IgnoredChoice`). During player setup the model yields `None`
  when the answers run out. With the text interface the read throws
  there (src/ui/tui/TUI.java:139-142), `createPlayers` catches only
  `NumberFormatException` (src/bootstrap/ServiceLoader.java:84), the
  game logic runs on the main thread (src/bootstrap/Main.java:88), and
  so `main` reports the error and exits with status 1
  (src/bootstrap/Main.java:27-30). The window interface would wait for
  an answer instead (src/ui/gui/GUI.java:249-250).
- Which files exist and which providers a plugin jar holds are inputs to a
  plugin load.

Two observations the model states as lemmas rather than assumptions:

- In the shipped wiring the board's `ChessmanMoved` listener is subscribed
  before the rule engine's (`Wiring.ShippedWiring`). So a landing on the
  destination marks the winner and ends the game first, and
  `checkGameOver` then finds the game over and publishes nothing
  (`EffectFacts.DestinationPreemptsCheck`, which states this for the
  winning landing itself). More generally, with the default rules no
  `GameOver` event is published: `Player.setWinner` is called only in
  `Destination.onLand`, which also calls `setGameOver(true)` in the same
  step (plugin-example/src/plugin/blocks/Destination.java:57-59). So
  whenever `checkGameOver` finds the game still running, no player is a
  winner and the default `isGameOver` is false
  (plugin-example/src/plugin/rule/DefaultRuleSetProvider.java:135-146).
  Only the winning-landing case is proved.
- A forward move of `n` steps publishes `n` easing events, not `n - 1`.
  Each of the `n - 1` silent steps publishes one, and the final
  `setPosition` publishes one more, because the old position is not -1
  (`EngineFacts.MoveForwardWithin` with `EngineFacts.SetPositionEvents`;
  `src/game/engine/Board.java:137-163` and
  `src/game/engine/Chessman.java:40`).

More points the model follows from the code:

- Because the player index starts at -1, the first turn after a reset
  selects player 0 and is already numbered turn 2 (`GameEngines.RoundRobin`).
- `pause` on a game that is already paused announces `GamePaused` again.
- A cell's request for an extra turn is itself part of the granting
  condition, so the turn end that sees it grants the turn and uses the
  request up. Only a turn end without a current player leaves it pending.

## Model

Functions that only compute carry no contract of their own and have no
row; the lemmas about them state their behaviour: `Actions.AnalyzeActions`
by `Actions.AnalyzeMoves` and `Actions.AnalyzeTakeOffs`,
`GameEngines.TurnStart` by `GameEngines.PlayTurnDice`,
`PlayerSetup.CreatePlayers` by `PlayerSetup.CreatePlayersSpec`,
`Cli.ParseArgs` by `Cli.Parse`, `Cli.ParseRender` and
`Cli.ParseEdgeCases`, `Boards.ChessmenAt` by `Boards.ChessmenAtSpec`, and
`DefaultRules.CanMove`, `DefaultRules.IsGameOver` and
`DefaultRules.GetWinner` by `DefaultRules.CanMoveSpec`,
`DefaultRules.IsGameOverSpec` and `DefaultRules.GetWinnerSpec`.

| member | source | states |
|---|---|---|
| Base.JDiv | plugin-example/src/plugin/map/RandomMapProvider.java:106 | Java's `/` for a positive divisor truncates toward zero: for a non-negative dividend the quotient is the largest `q >= 0` with `q * b <= a`, for a negative one the smallest `q <= 0` with `a <= q * b` |
| Base.JMod | plugin-example/src/plugin/map/RandomMapProvider.java:107 | Java's `%`: dividend = quotient * divisor + remainder, with the remainder taking the dividend's sign |
| Base.NextInt | plugin-example/src/plugin/blocks/Lucky.java:33 | `nextInt(bound)` fails exactly for a non-positive bound, otherwise yields a value in `[0, bound)` and consumes one draw |
| Base.IgnoredChoice | src/ui/tui/TUI.java:111-138 | a prompt whose choice is then ignored consumes answers up to and including the first one in range and leaves the rest; it never finishes exactly when no answer is in range |
| Base.ChooseIndexValid | src/game/engine/RuleEngine.java:69-78 | the re-ask loop returns the first answer that is a valid index, every earlier answer being out of range; it never finishes exactly when no answer is in range |
| Dice.Roll | src/game/engine/Dice.java:17-22 | `roll(sides)` fails exactly when `sides <= 0`, otherwise returns a face in `1..sides` from one draw |
| Dice.RollDefault | src/game/engine/Dice.java:12-15 | `roll()` is `roll(6)`, never fails and yields `1..6` |
| Blocks.LabelRoundTrip | plugin-example/src/plugin/blocks/Lucky.java:20-22 | a cell kind can be read back from its `getType()` label |
| Blocks.LabelsDistinct | plugin-example/src/plugin/blocks/Mine.java:17-19 | two cell kinds share a `getType()` label exactly when they are the same kind |
| Blocks.SymbolWidth | plugin-example/src/plugin/blocks/Lucky.java:108-110 | every text-mode symbol is two characters |
| Blocks.BlankSymbolOnlyForEmpty | plugin-example/src/plugin/blocks/Empty.java:9-31 | the blank symbol and the white colour belong to the empty cell and to no other kind |
| Blocks.NewNode | src/plugin/api/Node.java:8-12 | the two-argument constructor stores position and block and sets the value to 0 |
| Blocks.WithNodePosition | src/plugin/api/Node.java:25-27 | `setPosition` on a cell changes the position and nothing else |
| Blocks.WithNodeBlock | src/plugin/api/Node.java:33-35 | `setBlock` changes the block and nothing else |
| Blocks.WithNodeValue | src/plugin/api/Node.java:41-43 | `setValue` changes the value and nothing else |
| Entities.NewChessman | src/game/engine/Chessman.java:11-15 | a new piece keeps its id and owner and waits in the hangar at -1 |
| Entities.ResetChessman | src/game/engine/Chessman.java:32-34 | `reset` sends a piece back to -1 and keeps its id and owner |
| Entities.Fleet | src/game/engine/Player.java:17-20 | the constructor's pieces number `count`, piece `i` having id `i`, the player as owner, and position -1 |
| Entities.NewPlayer | src/game/engine/Player.java:13-21 | a new player has the given name and id, is active, is not a winner and owns `count` fresh pieces numbered from 0 |
| Entities.SetWinner | src/game/engine/Player.java:34-37 | `setWinner` marks the player, changes nothing else, and returns true |
| Entities.ResetPlayer | src/game/engine/Player.java:59-68 | `reset` clears the winner flag, makes the player active, and resets every piece, keeping name, id and fleet size |
| Entities.ResetNewPlayer | src/game/engine/Player.java:59-68 | resetting a freshly constructed player gives the same player back |
| Entities.ResetPlayerIdempotent | src/game/engine/Player.java:59-68 | resetting twice is resetting once |
| Entities.ResetPlayers | src/game/engine/Board.java:224-234 | `Board.reset` resets every player of the roster and keeps the roster's length |
| GameStates.NewGameState | src/game/engine/GameState.java:7-15 | a fresh state has the initial values: not running, paused or over, no current player, turn 1, dice 0, no winner, index -1, no extra turn |
| GameStates.Reset | src/game/engine/GameState.java:107-118 | `reset` brings any state back to exactly those initial values |
| GameStates.InitialUnique | src/game/engine/GameState.java:107-118 | there is one initial state, so a reset state equals a fresh one |
| GameContexts.NewContext | src/game/engine/GameContext.java:10-17 | the context starts with a fresh state, nothing set, and the bus |
| GameContexts.ResetContext | src/game/engine/GameContext.java:101-104 | `reset` makes the state initial and leaves every other field as it was |
| GameContexts.ClearContext | src/game/engine/GameContext.java:107-114 | `clear` drops map provider, rule set, interface, players and board, and resets the state, leaving only the bus |
| GameContexts.GettersAfterReset | src/game/engine/GameContext.java:86-99 | after `reset` or `clear` the delegating getters read no player, turn 1 and dice 0, and `getEventBus` returns the same bus |
| GameContexts.ClearForgets | src/game/engine/GameContext.java:107-114 | contexts sharing a bus clear to the same context, and a cleared context is a fixed point of both `reset` and `clear` |
| GameContexts.ResetIdempotent | src/game/engine/GameContext.java:101-104 | resetting twice is resetting once, and a reset context clears like the original |
| EventBus.Subscribe | src/game/engine/EventBus.java:23-39 | a present (subscriber, type) key leaves the bus unchanged; otherwise the listener is appended to its type's list and the key recorded; other types' lists never change |
| EventBus.RemoveFirst | src/game/engine/EventBus.java:61 | removing a listener takes out exactly one occurrence when there is one and otherwise changes nothing |
| EventBus.Unsubscribe | src/game/engine/EventBus.java:55-67 | a type without a list leaves the bus unchanged; otherwise the first equal listener and the key are removed and an emptied list is dropped; other types are untouched |
| EventBus.Clear | src/game/engine/EventBus.java:84-87 | `clear` leaves no listener for any type and no key |
| EventBus.SubscribeAllKeys | src/game/engine/EventBus.java:26-35 | after any sequence of subscriptions the keys are the old ones plus every key registered |
| EventBus.SubscribeAllOrder | src/game/engine/EventBus.java:32-35 | delivery order is subscription order: a type's list is the old list followed by the first-time registrations for it, in order |
| EventBus.KeptFresh | src/game/engine/EventBus.java:26-35 | registrations with distinct, unseen keys are all kept |
| EventBus.ResubscribeNoOp | src/game/engine/EventBus.java:26-30 | subscribing keys that are all present already changes nothing |
| Wiring.TuiHandlers | src/ui/tui/TUI.java:26-55 | the text interface puts one display handler on block effects and one on the game-over message, and nothing elsewhere |
| Wiring.GuiHandlers | src/ui/gui/GUI.java:64-117 | the window interface puts its window's display handler on the game-over message and its own on move animations and block effects, and nothing elsewhere |
| Wiring.BoardHandlers | src/game/engine/Board.java:97-100 | the board's dispatch goes on moves and take-offs, and the redraw callback after it on moves |
| Wiring.StartupKeysDistinct | src/bootstrap/Main.java:99-120 | no subscription key repeats during start-up, so none is dropped as a duplicate |
| Wiring.ShippedBusShape | src/bootstrap/Main.java:99-120 | before the first `initialize`, with either interface, the bus holds the interface's display handler for each type it shows, the board's dispatch for moves and take-offs, then the redraw for moves, and nothing else; its keys are exactly those registrations' |
| Wiring.InitHandlersMatch | src/game/engine/RuleEngine.java:16-20 | the registrations `initialize` makes give, per type, the rule engine's three handlers and the engine's two |
| Wiring.InitListeners | src/game/engine/GameEngine.java:50-53 | on a bus where none of those keys is present, `initialize` appends its handlers after whatever each type already had |
| Wiring.ShippedWiring | src/bootstrap/Main.java:99-123 | in the shipped start-up, with either interface, `ChessmanMoved` reaches the board's dispatch, then the redraw, then `checkGameOver`; each engine type gets exactly its handler, the interface's types keep their display handler, and no other type has a listener |
| DefaultRules.SixRule | plugin-example/src/plugin/rule/DefaultRuleSetProvider.java:14-16 | take-off and an extra turn both need exactly a six |
| DefaultRules.CanMoveSpec | plugin-example/src/plugin/rule/DefaultRuleSetProvider.java:61-77 | a piece may move exactly when it is on the path short of its end, whatever the roll |
| DefaultRules.CaptureSpec | plugin-example/src/plugin/rule/DefaultRuleSetProvider.java:80-84 | capture needs two pieces of different owners, and is symmetric |
| DefaultRules.BounceSpec | plugin-example/src/plugin/rule/DefaultRuleSetProvider.java:26-56 | a piece aimed past its end lands as many cells before the end as it aimed beyond it |
| DefaultRules.IsGameOverSpec | plugin-example/src/plugin/rule/DefaultRuleSetProvider.java:135-147 | the game is over exactly when some player is a winner |
| DefaultRules.GetWinnerSpec | plugin-example/src/plugin/rule/DefaultRuleSetProvider.java:150-162 | the winner is the first player marked as winner, and one exists exactly when the game is over |
| Actions.MoveOptionsSound | src/game/engine/RuleEngine.java:88-97 | every move option names a movable piece and carries its current position |
| Actions.MoveOptionsComplete | src/game/engine/RuleEngine.java:88-97 | every movable piece gets a move option |
| Actions.MoveOptionsOrdered | src/game/engine/RuleEngine.java:88-97 | move options come in increasing piece order |
| Actions.TakeOffOptionsSound | src/game/engine/RuleEngine.java:100-107 | every take-off option names a piece in the hangar |
| Actions.TakeOffOptionsComplete | src/game/engine/RuleEngine.java:100-107 | every hangar piece gets a take-off option |
| Actions.TakeOffOptionsOrdered | src/game/engine/RuleEngine.java:100-107 | take-off options come in increasing piece order |
| Actions.AnalyzeMoves | src/game/engine/RuleEngine.java:83-97 | a move option for piece `j` exists exactly when `0 <= position < end` |
| Actions.AnalyzeMovePositions | src/game/engine/RuleEngine.java:93-96 | each move option carries its piece's position |
| Actions.AnalyzeTakeOffs | src/game/engine/RuleEngine.java:99-108 | a take-off option for piece `j` exists exactly when the roll is a six and the piece is at -1, and all move options come before take-off options |
| Actions.NoOptions | src/game/engine/RuleEngine.java:63-67 | with nothing on the path short of the end, and either no six or nothing in the hangar, no option is offered |
| Engine.WithPos | src/game/engine/Board.java:143-147 | the reflective write changes only that piece's position and publishes nothing |
| Engine.Publish | src/game/engine/EventBus.java:70-81 | a publish records the event first and keeps the chain invariant, a throwing listener being isolated |
| Engine.Deliver | src/game/engine/EventBus.java:73-80 | delivering to a listener list keeps the chain invariant |
| Engine.Handle | src/game/engine/RuleEngine.java:16-20 | each handler keeps the chain invariant |
| Engine.Dispatch | src/game/engine/Board.java:53-95 | the board's dispatch restores the depth it was entered at on every path and keeps the chain invariant |
| Engine.SetPosition | src/game/engine/Chessman.java:37-49 | `setPosition` keeps the chain invariant |
| Engine.MoveChessman | src/game/engine/Board.java:103-219 | `moveChessman` keeps the chain invariant |
| Engine.ForwardSteps | src/game/engine/Board.java:118-176 | each forward step keeps the chain invariant |
| Engine.BackwardSteps | src/game/engine/Board.java:178-215 | each backward step keeps the chain invariant |
| Engine.OnOverEnd | src/game/engine/RuleEngine.java:22-41 | the overshoot handler keeps the chain invariant |
| Engine.CheckGameOver | src/game/engine/RuleEngine.java:184-205 | the game-over check keeps the chain invariant |
| Engine.OnDiceRolled | src/game/engine/RuleEngine.java:43-81 | the roll handler keeps the chain invariant |
| Engine.ExecuteAction | src/game/engine/RuleEngine.java:116-144 | carrying out an option keeps the chain invariant |
| Engine.OnEndTurn | src/game/engine/GameEngine.java:159-186 | the end-of-turn handler keeps the chain invariant |
| Engine.OnLand | src/game/engine/Board.java:86-91 | running a cell effect one level deep keeps the chain invariant |
| Engine.Finished | plugin-example/src/plugin/blocks/Destination.java:32-42 | the finished count never exceeds the fleet size |
| Engine.LandOnDestination | plugin-example/src/plugin/blocks/Destination.java:20-62 | the destination effect keeps the chain invariant |
| Engine.Redraw | plugin-example/src/plugin/blocks/Teleport.java:33-38 | the redraw loop keeps a first pick from the drawn range inside that range, and keeps a first pick that is neither the current cell nor 0 unchanged |
| Engine.RedrawConsumes | plugin-example/src/plugin/blocks/Lucky.java:40-44 | the redraw loop only consumes draws, at most one per remaining attempt of 50 |
| Engine.LuckyDraw | plugin-example/src/plugin/blocks/Lucky.java:36-44 | the lucky advance target lies after the current cell and at most at the end; the draw fails exactly when the piece is at or past its end |
| Engine.TeleportDraw | plugin-example/src/plugin/blocks/Teleport.java:31-38 | the teleport target lies in `[0, end)`; the draw fails exactly when the end is not positive |
| Engine.LandOnLucky | plugin-example/src/plugin/blocks/Lucky.java:25-100 | the lucky effect keeps the chain invariant |
| Engine.LuckyStepAhead | plugin-example/src/plugin/blocks/Lucky.java:35-55 | lucky outcome 0 keeps the chain invariant |
| Engine.LuckyBonusTurn | plugin-example/src/plugin/blocks/Lucky.java:56-64 | lucky outcome 1 keeps the chain invariant |
| Engine.LuckyJackpot | plugin-example/src/plugin/blocks/Lucky.java:65-89 | lucky outcome 2 keeps the chain invariant |
| Engine.LandOnTeleport | plugin-example/src/plugin/blocks/Teleport.java:24-48 | the teleport effect keeps the chain invariant |
| Engine.LandOnMine | plugin-example/src/plugin/blocks/Mine.java:22-39 | the mine effect keeps the chain invariant |
| Engine.LandOnBoost | plugin-example/src/plugin/blocks/SpeedUp.java:19-31 | the speed-up and slow-down effects keep the chain invariant |
| EngineFacts.DeliverPassive | src/game/engine/EventBus.java:73-80 | delivering an event no handler reacts to changes nothing |
| EngineFacts.PublishPassive | src/game/engine/EventBus.java:70-81 | publishing such an event only records it |
| EngineFacts.DeliverGrant | src/game/engine/GameEngine.java:58-60 | delivering `GrantNewTurn` raises the flag exactly when the engine's handler is among the listeners |
| EngineFacts.PublishGrant | src/game/engine/GameEngine.java:58-60 | publishing `GrantNewTurn` records it and raises the flag exactly when the handler is subscribed |
| EngineFacts.EasingsAt | src/game/engine/Board.java:150-155 | `k` silent steps give `k` easing events, the `i`-th from the cell after `i` steps to the next |
| EngineFacts.Step | src/game/engine/Board.java:139-158 | one silent step moves the piece one cell (backward never below 0) and keeps its end |
| EngineFacts.Walk | src/game/engine/Board.java:134-165 | `k` silent steps put the piece `k` cells on (backward clamped at 0) and keep its end |
| EngineFacts.WithPosTwice | src/game/engine/Board.java:147 | of two silent writes only the second one counts |
| EngineFacts.WalkClosed | src/game/engine/Board.java:137-159 | `k` silent steps are one write of the final cell plus the `k` easing events, nothing else changing |
| EngineFacts.ForwardOneOver | src/game/engine/Board.java:122-131 | a step past the end publishes one overshoot event aimed at `start + n`, `start + n - end` cells over, and stops with false |
| EngineFacts.ForwardOneSilent | src/game/engine/Board.java:137-159 | a forward step before the last, within the end, is a silent step |
| EngineFacts.ForwardOneLast | src/game/engine/Board.java:160-163 | the last forward step, within the end, goes through `setPosition` |
| EngineFacts.BackwardOneSilent | src/game/engine/Board.java:182-200 | a backward step before the last is a silent step |
| EngineFacts.BackwardOneLast | src/game/engine/Board.java:201-203 | the last backward step goes through `setPosition` |
| EngineFacts.WalkFirst | src/game/engine/Board.java:118-165 | a walk of `k > 0` steps is one step followed by `k - 1` more |
| EngineFacts.ForwardRun | src/game/engine/Board.java:118-165 | `k` forward steps within the end that come before the last are `k` silent steps |
| EngineFacts.BackwardRun | src/game/engine/Board.java:178-205 | `k` backward steps before the last are `k` silent steps |
| EngineFacts.ForwardPrefix | src/game/engine/Board.java:117-165 | the first `n - 1` steps of a forward move within reach of the end are silent |
| EngineFacts.MoveForwardWithin | src/game/engine/Board.java:117-218 | a forward move of `n >= 1` with `start + n <= end` is `n - 1` silent steps and then `setPosition(start + n)`, and answers true |
| EngineFacts.MoveForwardOver | src/game/engine/Board.java:118-131 | a forward move past the end walks silently up to the end, publishes one overshoot event aimed at `start + n` and `start + n - end` over, never writes beyond the end, and answers false |
| EngineFacts.MoveBackward | src/game/engine/Board.java:177-218 | a backward move of `n` is `n - 1` silent steps and a `setPosition` to `max(0, start - n)`, never writing a negative cell, and answers true |
| EngineFacts.MoveNothing | src/game/engine/Board.java:104-106 | no piece or zero steps: nothing changes and the answer is false |
| EngineFacts.SetPositionEvents | src/game/engine/Chessman.java:37-49 | `setPosition` stores the value, publishes an easing event first exactly when the old cell differs and is not -1, then exactly one `ChessmanMoved` for the piece |
| EngineFacts.SetPositionReports | src/game/engine/Chessman.java:48-49 | the events `setPosition` adds include `ChessmanMoved` for that piece and cell |
| EngineFacts.DispatchAtLimit | src/game/engine/Board.java:63-71 | at the maximum depth the dispatch publishes one warning effect and runs no cell effect |
| RuleFacts.OnOverEndSpec | src/game/engine/RuleEngine.java:22-41 | the overshoot handler publishes the rule's bounce message, then `setPosition(end - over)` |
| RuleFacts.CheckGameOverSpec | src/game/engine/RuleEngine.java:184-205 | a finished game, or one with no winner, is left alone; otherwise the first winner is recorded, the game is over, and `GameOver` is published |
| RuleFacts.OnDiceRolledIdle | src/game/engine/RuleEngine.java:43-67 | with no such player or no option nothing happens; with options but no valid answer the answers are used up and nothing else changes |
| RuleFacts.OnDiceRolledChoice | src/game/engine/RuleEngine.java:69-80 | with a valid answer, the first valid answer's option is carried out with the later answers still to come |
| RuleFacts.ExecuteTakeOff | src/game/engine/RuleEngine.java:130-143 | a take-off reports the piece moved onto its owner's start cell and, after that, publishes `ChessmanTakeOff` for it |
| EffectFacts.FinishedSpec | plugin-example/src/plugin/blocks/Destination.java:32-42 | the finished count is the whole fleet exactly when every piece is at or past the end, and 0 exactly when none is |
| EffectFacts.DestinationClosed | plugin-example/src/plugin/blocks/Destination.java:47-61 | the destination effect is the progress message followed, when all pieces are finished, by the win |
| EffectFacts.DestinationMessage | plugin-example/src/plugin/blocks/Destination.java:44-54 | exactly one message is published, with the finished count out of the fleet size |
| EffectFacts.DestinationKeepsPieces | plugin-example/src/plugin/blocks/Destination.java:20-62 | the destination effect moves no piece |
| EffectFacts.DestinationOutcome | plugin-example/src/plugin/blocks/Destination.java:56-61 | the owner wins and the game ends exactly when every piece of the owner is finished; otherwise winner flags and game state stay as they were |
| EffectFacts.DestinationPreemptsCheck | src/game/engine/RuleEngine.java:184-188 | after a winning destination landing, `checkGameOver` changes nothing and publishes no `GameOver` |
| EffectFacts.MineSpec | plugin-example/src/plugin/blocks/Mine.java:22-39 | when the input ends before a valid answer the prompt throws and nothing is shown; otherwise, after the prompt, one message and a `setPosition(-1)`, and with no current player it throws after the prompt |
| EffectFacts.BoostSpec | plugin-example/src/plugin/blocks/SlowDown.java:19-31 | without a current player, naming the player throws before anything is shown; with one, one message, then a move by the factor (2 or -2) times the turn's dice value |
| EffectFacts.TeleportSpec | plugin-example/src/plugin/blocks/Teleport.java:24-48 | when the input ends before a valid answer the prompt throws and nothing is shown; otherwise, with a positive end, one message naming the drawn target, which lies below the end, then `setPosition(target)`, and with a non-positive end the draw throws after the prompt |
| EffectFacts.LuckyStepAheadSpec | plugin-example/src/plugin/blocks/Lucky.java:35-55 | the drawn cell lies after the current one and at most at the end; without a current player the naming throws after the draw; with one, one message, then a forward move to that cell, which never overshoots |
| EffectFacts.LuckyStepAheadAtEnd | plugin-example/src/plugin/blocks/Lucky.java:36-38 | for a piece at or past its end the draw throws and nothing happens |
| EffectFacts.LuckyBonusTurnSpec | plugin-example/src/plugin/blocks/Lucky.java:56-64 | without a current player the check throws before anything is published; with one, `GrantNewTurn`, then one message; no piece moves |
| EffectFacts.LuckyJackpotSpec | plugin-example/src/plugin/blocks/Lucky.java:65-89 | when the input ends before a valid answer the second prompt throws and nothing is shown; otherwise a draw of 0 out of 3 sends the piece to its end through `setPosition` (throwing instead when there is no current player), and any other draw only shows the no-prize message |
| GameEngines.Start | src/game/engine/GameEngine.java:63-74 | a running game is left alone; otherwise it runs and `GameStarted` is announced |
| GameEngines.Stop | src/game/engine/GameEngine.java:77-85 | only a running game stops and announces it |
| GameEngines.Pause | src/game/engine/GameEngine.java:88-98 | only a running game pauses, announcing it on every call |
| GameEngines.Resume | src/game/engine/GameEngine.java:101-110 | only a running, paused game resumes and announces it |
| GameEngines.StartStop | src/game/engine/GameEngine.java:63-85 | stopping a just-started game restores the world, both announcements recorded |
| GameEngines.PauseResume | src/game/engine/GameEngine.java:88-110 | resuming a just-paused game restores the world, both announcements recorded |
| GameEngines.Initialize | src/game/engine/GameEngine.java:30-56 | an empty roster is refused with its message; otherwise a running game is stopped, the roster installed, the state reset, the engine's and rule engine's handlers subscribed and `GameInitialized` published |
| GameEngines.RematchKeepsBus | src/game/engine/GameEngine.java:50-53 | a second `initialize` subscribes nothing new: the bus is the one the first left |
| GameEngines.Advance | src/game/engine/GameEngine.java:131-140 | without an extra turn the index becomes `(i + 1) mod n` and the turn number rises exactly when it becomes 0; with one, the same player plays again; the flag is cleared either way and nothing else changes |
| GameEngines.RoundRobin | src/game/engine/GameEngine.java:131-139 | from a reset state the `k`-th advance selects player `(k - 1) mod n` in turn `2 + (k - 1) / n` |
| GameEngines.PlayTurn | src/game/engine/GameEngine.java:113-116 | a game that is not running, is paused or is over is left alone |
| GameEngines.PlayTurnKeepsReady | src/game/engine/GameEngine.java:125-157 | a ready game never throws in `turnStart`, and one turn leaves it ready with its roster size |
| GameEngines.InitializeReady | src/game/engine/GameEngine.java:30-56 | a successful `initialize` leaves a game ready to play |
| GameEngines.PlayTurnDice | src/game/engine/GameEngine.java:145-157 | in one turn the next player in order rolls, and the same dice value is in the state, in `DiceRolled` and in `EndTurn` |
| GameEngines.OnEndTurnSpec | src/game/engine/GameEngine.java:159-186 | without a current player nothing happens; otherwise the extra turn is set when the roll grants one or a cell asked for one (an earlier one is kept), the cell's request is used up, and `TurnEnded` carries the state's dice value and the extra-turn outcome |
| MapProviders.MapName | plugin-example/src/plugin/map/RandomMapProvider.java:100-102 | the random map registers as `random` and the S-shaped map as `default` |
| MapProviders.RosterBounds | plugin-example/src/plugin/map/SShapeMapProvider.java:101-138 | the S-shaped map takes exactly 2 players and the random map 2 to 4, each with up to 4 pieces |
| MapProviders.GetMap | plugin-example/src/plugin/map/SShapeMapProvider.java:116-118 | the S-shaped map returns its fixed grid; the random map delegates to its memoised builder |
| MapProviders.GetMapStable | plugin-example/src/plugin/map/RandomMapProvider.java:122-125 | the grid a provider shows does not change once shown |
| MapProviders.LandingAt | src/game/engine/Board.java:79-91 | the board looks up the grid only for non-negative coordinates and then reads the cell there |
| MapProviders.SShapeLanding | src/game/engine/Board.java:79-91 | on the S-shaped map a lane cell yields that lane's kind and anything else no cell |
| MapProviders.RandomLanding | src/game/engine/Board.java:79-91 | on an unbuilt random map a path cell yields its role, a negative cell none, and a cell past the path an empty cell or a lookup out of bounds |
| RandomMaps.New | plugin-example/src/plugin/map/RandomMapProvider.java:56-69 | the constructor accepts exactly 2 to 4 players and 20 to 100 cells, with no grid built yet |
| RandomMaps.GridHeightSpec | plugin-example/src/plugin/map/RandomMapProvider.java:71-74 | the height is the least number of 13-cell rows that holds the path |
| RandomMaps.XYSpec | plugin-example/src/plugin/map/RandomMapProvider.java:105-114 | on the path, `positionToXY` lands in column range and row `p / 13`, and `PathIndex` inverts it |
| RandomMaps.XYOnto | plugin-example/src/plugin/map/RandomMapProvider.java:105-114 | every grid cell is the image of its path index |
| RandomMaps.NegativeOffGrid | plugin-example/src/plugin/map/RandomMapProvider.java:105-114 | a negative position (the hangar) maps outside the grid |
| RandomMaps.XYInjective | plugin-example/src/plugin/map/RandomMapProvider.java:105-114 | distinct path positions map to distinct cells |
| RandomMaps.NextFree | plugin-example/src/plugin/map/RandomMapProvider.java:207-209 | the scan stops at the first normal cell from `pos`, or at `end` |
| RandomMaps.DistributeBlocks | plugin-example/src/plugin/map/RandomMapProvider.java:194-215 | only normal cells in `[start, end)` are overwritten, with `t`; at most `count` are added; other special kinds keep their counts; `count <= 0` changes nothing |
| RandomMaps.DistributeFrom | plugin-example/src/plugin/map/RandomMapProvider.java:203-214 | the remaining slices add at most one cell of `t` each, on normal cells in range |
| RandomMaps.SlotFor | plugin-example/src/plugin/map/RandomMapProvider.java:204-206 | a slice's aim lies in `[start, end)` |
| RandomMaps.Put | plugin-example/src/plugin/map/RandomMapProvider.java:212 | writing a special kind over a normal cell adds one of that kind and keeps the others |
| RandomMaps.MineBetweenSpec | plugin-example/src/plugin/map/RandomMapProvider.java:238-245 | the scan finds a mine exactly when some other in-pattern index in the window holds one |
| RandomMaps.NearbySpec | plugin-example/src/plugin/map/RandomMapProvider.java:238-245 | with no mine nearby, no mine lies within two cells of `pos` |
| RandomMaps.DistributeMines | plugin-example/src/plugin/map/RandomMapProvider.java:217-236 | at most `count` mines in at most `10 * count` draws, only on normal cells in range, other kinds untouched, and mine spacing kept |
| RandomMaps.MinesFrom | plugin-example/src/plugin/map/RandomMapProvider.java:225-233 | the attempt loop's counters stay within their bounds and every placed mine is counted |
| RandomMaps.PutMine | plugin-example/src/plugin/map/RandomMapProvider.java:228-231 | a mine laid on a normal cell with no mine nearby adds one mine and keeps the spacing |
| RandomMaps.AllNormal | plugin-example/src/plugin/map/RandomMapProvider.java:169-171 | the starting pattern is all normal |
| RandomMaps.AddKind | plugin-example/src/plugin/map/RandomMapProvider.java:176-186 | one `distributeBlocks` round keeps the protected cells normal and changes only its own kind's count |
| RandomMaps.SpreadBlocks | plugin-example/src/plugin/map/RandomMapProvider.java:176-186 | lucky, speed-up, slow-down and teleport cells are within their quotas, with no mines yet |
| RandomMaps.MineCountNeedsRoom | plugin-example/src/plugin/map/RandomMapProvider.java:163-174 | a positive mine quota implies a non-empty unprotected range, so the mine draw never gets a zero bound |
| RandomMaps.GenerateBlockPattern | plugin-example/src/plugin/map/RandomMapProvider.java:158-192 | the pattern has the path's length, leaves the first two and last three cells normal, keeps every special kind within its ratio quota, and no two mines are closer than three cells |
| RandomMaps.AddMines | plugin-example/src/plugin/map/RandomMapProvider.java:189 | the mine round adds at most the mine quota and changes no other kind |
| RandomMaps.GetMap | plugin-example/src/plugin/map/RandomMapProvider.java:122-156 | `getMap` returns the memoised grid if there is one, else builds and keeps one |
| RandomMaps.GetMapMemoised | plugin-example/src/plugin/map/RandomMapProvider.java:122-125 | a second `getMap` returns the first one's grid and changes nothing |
| RandomMaps.BuildSpec | plugin-example/src/plugin/map/RandomMapProvider.java:126-152 | the grid is `GridHeight` rows of 13, each path cell holds its position and role, every other cell is an empty cell at -1 |
| RandomMaps.RoleSpec | plugin-example/src/plugin/map/RandomMapProvider.java:140-149 | the start is the first cell, the destination the last, the pattern in between, and no path cell is empty |
| RandomMaps.StartPosition | plugin-example/src/plugin/map/RandomMapProvider.java:295-297 | every player starts on the start cell |
| RandomMaps.EndPosition | plugin-example/src/plugin/map/RandomMapProvider.java:290-292 | every player ends on the last path cell, the destination |
| SShapeMap.XYSpec | plugin-example/src/plugin/map/SShapeMapProvider.java:141-171 | the 50 lane positions fall in the 13 by 7 grid and `PositionAt` inverts the mapping |
| SShapeMap.XYOffPath | plugin-example/src/plugin/map/SShapeMapProvider.java:173 | every other position maps to (-1, -1) |
| SShapeMap.PositionAtSpec | plugin-example/src/plugin/map/SShapeMapProvider.java:141-174 | a grid cell holding a lane position is that position's cell |
| SShapeMap.UpperRoleSpec | plugin-example/src/plugin/map/SShapeMapProvider.java:52-64 | upper lane: start 0, destination 24, mine 5, speed-up 8, lucky 17 to 23, normal elsewhere |
| SShapeMap.LowerRoleSpec | plugin-example/src/plugin/map/SShapeMapProvider.java:80-92 | lower lane: start 25, destination 49, mine 28, lucky 32 to 48, normal elsewhere, and no speed-up; the test for 41 never decides |
| SShapeMap.InitMap | plugin-example/src/plugin/map/SShapeMapProvider.java:32-98 | `initMap` builds a 7 by 13 grid |
| SShapeMap.AllXY | plugin-example/src/plugin/map/SShapeMapProvider.java:141-171 | all fifty positions at once are in the grid and inverted by `PositionAt` |
| SShapeMap.UpperLane | plugin-example/src/plugin/map/SShapeMapProvider.java:42-67 | the upper-lane loop keeps the grid 7 by 13 |
| SShapeMap.UpperLaneCells | plugin-example/src/plugin/map/SShapeMapProvider.java:42-67 | after the upper lane its cells hold their positions and kinds |
| SShapeMap.UpperLaneBlank | plugin-example/src/plugin/map/SShapeMapProvider.java:35-67 | after the upper lane every unused cell is still blank |
| SShapeMap.InitMapUpper | plugin-example/src/plugin/map/SShapeMapProvider.java:69-95 | laying the lower lane keeps the upper lane's cells |
| SShapeMap.InitMapLower | plugin-example/src/plugin/map/SShapeMapProvider.java:69-95 | the lower lane's cells hold their positions and kinds |
| SShapeMap.LanesInGrid | plugin-example/src/plugin/map/SShapeMapProvider.java:44 | the bounds check never skips a lane position |
| SShapeMap.InitMapCells | plugin-example/src/plugin/map/SShapeMapProvider.java:32-98 | the cell at `positionToXY(p)` holds `p` with its lane's kind |
| SShapeMap.InitMapBlank | plugin-example/src/plugin/map/SShapeMapProvider.java:35-40 | every cell on neither lane is an empty cell at -1 |
| SShapeMap.StartPosition | plugin-example/src/plugin/map/SShapeMapProvider.java:177-186 | player 0 starts at 0, player 1 at 25, anyone else at 0 |
| SShapeMap.LanesSpec | plugin-example/src/plugin/map/SShapeMapProvider.java:177-198 | each player runs a 25-cell lane from a start cell to a destination cell; other indices fall back to 0 and 49 |
| Grids.Filled | plugin-example/src/plugin/map/RandomMapProvider.java:126-131 | a filled grid has the requested shape with every cell equal to the given one |
| Grids.SetCell | plugin-example/src/plugin/map/RandomMapProvider.java:151 | writing a cell replaces it and keeps every other cell and the shape |
| Grids.PlaceAllHits | plugin-example/src/plugin/map/RandomMapProvider.java:133-152 | with no overwrites, each placed position's cell holds that position and its role |
| Grids.PlaceAllMisses | plugin-example/src/plugin/map/RandomMapProvider.java:133-152 | cells no position lands on keep their contents |
| Grids.PlaceHits | plugin-example/src/plugin/map/SShapeMapProvider.java:42-67 | injective placement puts each in-grid position's own cell at its coordinates |
| Grids.PlaceMisses | plugin-example/src/plugin/map/SShapeMapProvider.java:42-67 | placement leaves every cell no position lands on as it was |
| Boards.FleetAtSpec | src/game/engine/Board.java:43-47 | the inner loop lists exactly the player's pieces on the cell, in fleet order |
| Boards.RosterAtSpec | src/game/engine/Board.java:42-48 | the outer loop lists exactly the pieces of the remaining players on the cell, player by player |
| Boards.ChessmenAtSpec | src/game/engine/Board.java:38-51 | `getChessmenAt` returns exactly the pieces on the cell, in player-then-piece order, and nothing without a roster |
| Boards.OrderedDistinct | src/game/engine/Board.java:38-51 | that order never lists a piece twice |
| Boards.SShapeStartEnd | src/game/engine/Board.java:18-35 | without map or piece neither check holds; on the S-shaped map the start check holds only on a start cell and the end check only on a destination cell, never both at once |
| PluginRegistry.LowerChar | src/bootstrap/spi/PluginLoader.java:65 | lower-casing maps `A`..`Z` to `a`..`z`, keeps everything else, and leaves no upper-case letter |
| PluginRegistry.Lower | src/bootstrap/spi/PluginLoader.java:85 | `toLowerCase` keeps the length and lower-cases each character |
| PluginRegistry.LowerIdempotent | src/bootstrap/spi/PluginLoader.java:85 | a lower-cased key is its own lookup key |
| PluginRegistry.RegisterAllLastWins | src/bootstrap/spi/PluginLoader.java:63-77 | registration is last-wins per lower-cased name; keys not registered keep what they had |
| PluginRegistry.GetMapProvider | src/bootstrap/spi/PluginLoader.java:84-91 | the lookup succeeds exactly when the lower-cased name is a key; otherwise it fails naming the name and the available keys |
| PluginRegistry.GetRuleSetProvider | src/bootstrap/spi/PluginLoader.java:93-100 | the same for rule sets |
| PluginRegistry.LookupCaseInsensitive | src/bootstrap/spi/PluginLoader.java:84-100 | names that lower-case alike find the same provider, or both fail |
| PluginRegistry.AvailableFound | src/bootstrap/spi/PluginLoader.java:102-104 | every available lower-case key is found under itself |
| PluginRegistry.UsableJars | src/bootstrap/spi/PluginLoader.java:36-50 | the kept paths are exactly the given ones that exist and end in `.jar` |
| PluginRegistry.LoadPlugins | src/bootstrap/spi/PluginLoader.java:28-82 | with no path or no usable jar nothing changes; otherwise one class loader is added |
| PluginRegistry.LoadLookup | src/bootstrap/spi/PluginLoader.java:63-77 | after a load, a name resolves to the last provider discovered under it, and undiscovered names resolve as before |
| PluginRegistry.Cleanup | src/bootstrap/spi/PluginLoader.java:110-121 | `cleanup` closes every loader and empties both tables |
| PluginRegistry.CleanupForgets | src/bootstrap/spi/PluginLoader.java:110-121 | after cleanup every lookup fails with nothing available |
| PlayerSetup.ParseInt | src/bootstrap/ServiceLoader.java:80 | a parsed number fits in 32 bits |
| PlayerSetup.ShowNat | src/bootstrap/ServiceLoader.java:110 | the decimal rendering is non-empty digits without a leading zero |
| PlayerSetup.ParseShowNat | src/bootstrap/ServiceLoader.java:80 | `parseInt` reads back every rendered value that fits in 32 bits |
| PlayerSetup.ParseNegative | src/bootstrap/ServiceLoader.java:80 | a leading minus negates |
| PlayerSetup.ParseRejects | src/bootstrap/ServiceLoader.java:80-85 | the empty string, a lone sign and a value past 32 bits are rejected |
| PlayerSetup.ReadCount | src/bootstrap/ServiceLoader.java:77-88 | a finished count loop yields a count in range |
| PlayerSetup.ReadCountSpec | src/bootstrap/ServiceLoader.java:77-88 | from an out-of-range count the loop settles on the first answer that is a number in range, leaving later answers unread; it yields `None` (the read at end of input throws) exactly when there is no such answer |
| PlayerSetup.PlayerName | src/bootstrap/ServiceLoader.java:107-110 | a name is the (trimmed) answer, or `玩家` and the player's number for an empty answer, and never empty |
| PlayerSetup.NamePlayers | src/bootstrap/ServiceLoader.java:106-114 | player `i` gets id `i`, the count of pieces, and the name from answer `i`; the loop finishes exactly when there are enough answers |
| PlayerSetup.CreatePlayersSpec | src/bootstrap/ServiceLoader.java:70-118 | a finished setup yields between the map's minimum and maximum players, player `i` with id `i`, active, not a winner, a non-empty name, and the same 1 to max fresh pieces as every other player |
| Cli.Parse | src/bootstrap/Main.java:160-207 | the option loop only ends with status 0 or 1, and only adds plugin jars after the ones it had |
| Cli.ParsePlugins | src/bootstrap/Main.java:187-192 | repeated plugin options accumulate their jars in order |
| Cli.ParseRender | src/bootstrap/Main.java:160-207 | every configuration round-trips: parsing its rendering gives it back, whatever its values look like |
| Cli.ParseEdgeCases | src/bootstrap/Main.java:160-207 | no arguments give the defaults; a trailing option without value is dropped; a value that looks like an option is still a value; `--help` exits 0 and an unknown word exits 1 |
| Cli.ParseOptionPair | src/bootstrap/Main.java:166-192 | a complete option is applied before the rest is read, later values replacing earlier ones |
| Cli.LoadUi | src/bootstrap/ServiceLoader.java:51-61 | `tui` and `gui` are accepted in any case, anything else is an error naming the type |
| Cli.DefaultUi | src/bootstrap/Main.java:224-228 | the default configuration, and `--ui` with any spelling of `gui`, open the graphical interface |

## Left out

- Console and window output, the user-interface classes, `runGameLoop`, animation delays and `Thread.sleep`: these are input and output only. The interfaces' display listeners and the redraw listener are `Render` listeners, which change nothing; only their place on the bus is modelled (`Wiring`).
- Prompts at the end of input follow the text interface, whose read throws there. The window interface's prompt would instead wait for an answer that never comes; that blocking is not modelled.
- Threads: the board's depth counter is thread-local in the source. The model is single-threaded, so it is one field of the world.
- `java.util.Random`: modelled as a stream of draws. The generator's own algorithm is not modelled.
- `Dice.setSeed`: re-seeding only replaces the stream of draws, which is an input here.
- The seed of the random map provider, and `System.currentTimeMillis` as the default seed: same reason.
- Floating-point ratios in `generateBlockPattern` and `distributeBlocks`: written as exact integer arithmetic. On the constructor's domain of 20 to 100 cells the two agree.
- `turnNumber` is a Java `int`. Its wrap-around after 2^31 turns is not modelled.
- Object identity and aliasing: players are referred to by index, and a piece's owner by player id. `initialize` installs the roster it is given. In the source, `Board.reset` first resets the players the context already holds. At the first start those are freshly created players, and resetting a fresh player changes nothing (`Entities.ResetNewPlayer`). At a rematch they are the finished game's players, which `setPlayers` drops right after, so that reset cannot be observed.
- The context's null checks on the rule set provider: the default rule set is always installed.
- The board's early returns for a missing map provider: the start-up code sets the map provider before the board is created, so these returns cannot be reached, and the world always holds a map provider.
- The rule engine's early return in `onDiceRolled` when the context has no user interface (src/game/engine/RuleEngine.java:48-52): the start-up code sets the interface (src/bootstrap/Main.java:109) before `engine.initialize` subscribes the rule engine (src/bootstrap/Main.java:123), and nothing clears it afterwards, so this return cannot be reached and the world always has an interface.
- `getSubscriberClassName` reads the stack. The subscriber's class name is an explicit part of each registration.
- Exceptions thrown by listeners are modelled as a flag that `publish` discards. Exception messages and stack traces are not modelled.
- `Integer.parseInt` also accepts non-ASCII Unicode digits. `PlayerSetup.ParseInt` accepts ASCII digits only.
- `toLowerCase` (plugin lookup) and `equalsIgnoreCase` (the interface choice in `loadUI`, src/bootstrap/ServiceLoader.java:52, 55, and src/bootstrap/Main.java:78) are modelled for ASCII letters only. Unicode case mapping is not, so `Cli.LoadUi` rejects a name such as "tuı" (dotless ı) that Java's `equalsIgnoreCase` accepts.
- The colour messages of `createPlayers`, its prompts and error messages: output only.
- `ServiceLoader.createBoard` and `loadGameEngine` only construct objects; the board's listeners are part of `Wiring`.
- `loadUI` also sets the colour palette and launches the window; only the choice of interface is modelled.
- `loadPluginsFromJars`: which files exist is an input set. The `.jar` test is applied to the path, whereas the source applies it to the file name; the two differ only for paths ending in a separator. Discovering providers inside a jar is an input sequence.
- `PluginRegistry.GetMapProvider` and `GetRuleSetProvider`: the error lists the available names as a set. The source joins them in `HashMap` key order, which is unspecified.
- Player names, descriptions and versions of providers, difficulty and recommended players: metadata only, never read by the engine.
