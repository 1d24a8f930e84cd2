/** Who subscribes what: the registrations the rule engine, the game
    engine, the board and the start-up code make, and the listener lists
    they produce on the bus in the order the program makes them. */
module Wiring {
  import opened Events
  import opened EventBus
  import opened GameContexts

  /** `new RuleEngine()`: its three handlers, in the constructor's order. */
  const RuleEngineRegistrations: seq<Registration> := [
    Registration("RuleEngine", TDiceRolled, RuleOnDiceRolled),
    Registration("RuleEngine", TChessmanMoved, RuleCheckGameOver),
    Registration("RuleEngine", TChessmanOverEnd, RuleOnChessmanOverEnd)]

  /** The engine's own two handlers. */
  const EngineRegistrations: seq<Registration> := [
    Registration("GameEngine", TEndTurn, EngineOnEndTurn),
    Registration("GameEngine", TGrantNewTurn, EngineOnGrantNewTurn)]

  /** Everything `initialize` subscribes, in order. */
  const InitRegistrations: seq<Registration> := RuleEngineRegistrations + EngineRegistrations

  /** The name an interface's display handlers are subscribed under: the
      text interface's own class, and for the window interface its
      `GameWindow` for the game-over message and the `GUI` class for the
      rest. */
  function UiSubscriber(ui: UserInterface, t: EventType): string
  {
    if ui == Gui && t == TGameOver then "GameWindow"
    else if ui == Gui then "GUI"
    else "TUI"
  }

  /** `ui.initialize`, the first thing the start-up code does with the
      bus: the text interface shows block effects, then the game-over
      message; the window interface's `GameWindow` shows the game-over
      message, then the `GUI` class animates moves and shows block
      effects. All of them only display. */
  function UiRegistrations(ui: UserInterface): seq<Registration>
  {
    if ui == Gui then GuiRegistrations else TuiRegistrations
  }

  /** The text interface's subscriptions. */
  const TuiRegistrations: seq<Registration> := [
    Registration("TUI", TBlockEffect, Render("TUI")),
    Registration("TUI", TGameOver, Render("TUI"))]

  /** The window interface's subscriptions. */
  const GuiRegistrations: seq<Registration> := [
    Registration("GameWindow", TGameOver, Render("GameWindow")),
    Registration("GUI", TChessmanMoveEasing, Render("GUI")),
    Registration("GUI", TBlockEffect, Render("GUI"))]

  /** `new Board()` subscribes the board's dispatch to moves and to
      take-offs, then the start-up code adds the redraw callback for
      moves. */
  const BoardRegistrations: seq<Registration> := [
    Registration("Board", TChessmanMoved, BoardOnChessmanMoved),
    Registration("Board", TChessmanTakeOff, BoardOnChessmanMoved),
    Registration("Main", TChessmanMoved, Render("Main"))]

  /** Everything the start-up code subscribes before the first
      `initialize`, in order. */
  function StartupRegistrations(ui: UserInterface): seq<Registration>
  {
    UiRegistrations(ui) + BoardRegistrations
  }

  /** The bus as the start-up code leaves it just before the first
      `initialize`. */
  function ShippedBus(ui: UserInterface): Bus
  {
    SubscribeAll(EmptyBus, StartupRegistrations(ui))
  }

  /** The event types an interface displays: both show block effects and
      the game-over message, and the window interface also animates
      moves. */
  predicate Shows(ui: UserInterface, t: EventType)
  {
    t == TBlockEffect || t == TGameOver || (ui == Gui && t == TChessmanMoveEasing)
  }

  /** The keys the start-up code registers before the first `initialize`:
      one per type the interface displays, the board's two and the redraw
      callback's. */
  function ShippedKeys(ui: UserInterface): set<SubKey>
  {
    (if ui == Gui then {SubKey("GameWindow", TGameOver), SubKey("GUI", TChessmanMoveEasing), SubKey("GUI", TBlockEffect)}
     else {SubKey("TUI", TGameOver), SubKey("TUI", TBlockEffect)})
      + {SubKey("Board", TChessmanMoved), SubKey("Board", TChessmanTakeOff), SubKey("Main", TChessmanMoved)}
  }

  /** The start-up code never registers a key twice. */
  lemma StartupKeysDistinct(ui: UserInterface)
    ensures var regs := StartupRegistrations(ui);
      forall i, j :: 0 <= i < j < |regs| ==> KeyOf(regs[i]) != KeyOf(regs[j])
  {
    var regs := StartupRegistrations(ui);
    assert |"Main"| != |"Board"|;
    assert forall i, j :: 0 <= i < j < |regs| && regs[i].eventType == regs[j].eventType ==>
      regs[i].subscriber != regs[j].subscriber;
  }

  /** The board's and the redraw callback's listeners for one type. */
  lemma BoardHandlers(t: EventType)
    ensures Handlers(BoardRegistrations, t) ==
      if t == TChessmanMoved then [BoardOnChessmanMoved, Render("Main")]
      else if t == TChessmanTakeOff then [BoardOnChessmanMoved]
      else []
  {
    var bs := BoardRegistrations;
    assert Handlers(bs[2..], t) == (if t == TChessmanMoved then [Render("Main")] else []) + Handlers(bs[3..], t);
    assert Handlers(bs[1..], t) == (if t == TChessmanTakeOff then [BoardOnChessmanMoved] else []) + Handlers(bs[2..], t);
  }

  /** The text interface's listeners for one type. */
  lemma TuiHandlers(t: EventType)
    ensures Handlers(TuiRegistrations, t) == if t == TBlockEffect || t == TGameOver then [Render("TUI")] else []
  {
    var us := TuiRegistrations;
    assert Handlers(us[1..], t) == (if t == TGameOver then [Render("TUI")] else []) + Handlers(us[2..], t);
  }

  /** The window interface's listeners for one type. */
  lemma GuiHandlers(t: EventType)
    ensures Handlers(GuiRegistrations, t) ==
      if t == TGameOver then [Render("GameWindow")]
      else if t == TChessmanMoveEasing || t == TBlockEffect then [Render("GUI")]
      else []
  {
    var us := GuiRegistrations;
    assert Handlers(us[2..], t) == (if t == TBlockEffect then [Render("GUI")] else []) + Handlers(us[3..], t);
    assert Handlers(us[1..], t) == (if t == TChessmanMoveEasing then [Render("GUI")] else []) + Handlers(us[2..], t);
  }

  /** An interface's listeners for one type: one display handler for each
      type it shows. */
  lemma UiHandlers(ui: UserInterface, t: EventType)
    ensures Handlers(UiRegistrations(ui), t) == if Shows(ui, t) then [Render(UiSubscriber(ui, t))] else []
  {
    if ui == Tui {
      TuiHandlers(t);
    } else {
      GuiHandlers(t);
    }
  }

  /** The start-up code's listeners for one type, in order. */
  lemma StartupHandlers(ui: UserInterface, t: EventType)
    ensures t == TChessmanMoved ==> Handlers(StartupRegistrations(ui), t) == [BoardOnChessmanMoved, Render("Main")]
    ensures t == TChessmanTakeOff ==> Handlers(StartupRegistrations(ui), t) == [BoardOnChessmanMoved]
    ensures Shows(ui, t) ==> Handlers(StartupRegistrations(ui), t) == [Render(UiSubscriber(ui, t))]
    ensures t != TChessmanMoved && t != TChessmanTakeOff && !Shows(ui, t) ==> Handlers(StartupRegistrations(ui), t) == []
  {
    HandlersAppend(UiRegistrations(ui), BoardRegistrations, t);
    BoardHandlers(t);
    UiHandlers(ui, t);
    if Shows(ui, t) {
      assert Handlers(BoardRegistrations, t) == [];
    } else {
      assert Handlers(UiRegistrations(ui), t) == [];
    }
  }

  /** The keys the start-up code registers are those of `ShippedKeys`. */
  lemma StartupKeys(ui: UserInterface)
    ensures Keys(StartupRegistrations(ui)) == ShippedKeys(ui)
  {
    KeysAppend(UiRegistrations(ui), BoardRegistrations);
    var bs := BoardRegistrations;
    assert Keys(bs[1..]) == {KeyOf(bs[1])} + Keys(bs[2..]);
    if ui == Tui {
      var us := TuiRegistrations;
      assert Keys(us[1..]) == {KeyOf(us[1])} + Keys(us[2..]);
    } else {
      var us := GuiRegistrations;
      assert Keys(us[1..]) == {KeyOf(us[1])} + Keys(us[2..]);
    }
  }

  /** Since no key repeats, every start-up registration reaches its list. */
  lemma StartupListeners(ui: UserInterface, t: EventType)
    ensures ListenersFor(ShippedBus(ui), t) == Handlers(StartupRegistrations(ui), t)
  {
    var regs := StartupRegistrations(ui);
    SubscribeAllOrder(EmptyBus, regs, t);
    StartupKeysDistinct(ui);
    KeptFresh({}, regs, t);
  }

  /** What the start-up code leaves on the bus: on moves the board's
      dispatch and then the redraw callback, on take-offs the board's
      dispatch, one display handler for each type the interface shows,
      nothing else; the keys are those of `ShippedKeys`. */
  lemma ShippedBusShape(ui: UserInterface, t: EventType)
    ensures ShippedBus(ui).subscriptions == ShippedKeys(ui)
    ensures t == TChessmanMoved ==> ListenersFor(ShippedBus(ui), t) == [BoardOnChessmanMoved, Render("Main")]
    ensures t == TChessmanTakeOff ==> ListenersFor(ShippedBus(ui), t) == [BoardOnChessmanMoved]
    ensures Shows(ui, t) ==> ListenersFor(ShippedBus(ui), t) == [Render(UiSubscriber(ui, t))]
    ensures t != TChessmanMoved && t != TChessmanTakeOff && !Shows(ui, t) ==> ListenersFor(ShippedBus(ui), t) == []
  {
    SubscribeAllKeys(EmptyBus, StartupRegistrations(ui));
    StartupKeys(ui);
    StartupListeners(ui, t);
    StartupHandlers(ui, t);
  }

  /** The handlers `initialize` adds for each type, in order. */
  function InitHandlers(t: EventType): seq<Listener>
  {
    match t
    case TDiceRolled => [RuleOnDiceRolled]
    case TChessmanMoved => [RuleCheckGameOver]
    case TChessmanOverEnd => [RuleOnChessmanOverEnd]
    case TEndTurn => [EngineOnEndTurn]
    case TGrantNewTurn => [EngineOnGrantNewTurn]
    case _ => []
  }

  /** `initialize` registers five different keys, one per event type. */
  lemma InitKeysDistinct()
    ensures forall i, j :: 0 <= i < j < |InitRegistrations| ==> KeyOf(InitRegistrations[i]) != KeyOf(InitRegistrations[j])
  {
    var regs := InitRegistrations;
    assert forall i, j :: 0 <= i < j < |regs| ==> regs[i].eventType != regs[j].eventType;
  }

  /** The listeners `initialize` registers per type are those of
      `InitHandlers`. */
  lemma InitHandlersMatch(t: EventType)
    ensures Handlers(InitRegistrations, t) == InitHandlers(t)
  {
    HandlersAppend(RuleEngineRegistrations, EngineRegistrations, t);
    var rs := RuleEngineRegistrations;
    assert Handlers(rs[2..], t) == (if t == TChessmanOverEnd then [RuleOnChessmanOverEnd] else []) + Handlers(rs[3..], t);
    assert Handlers(rs[1..], t) == (if t == TChessmanMoved then [RuleCheckGameOver] else []) + Handlers(rs[2..], t);
    var es := EngineRegistrations;
    assert Handlers(es[1..], t) == (if t == TGrantNewTurn then [EngineOnGrantNewTurn] else []) + Handlers(es[2..], t);
  }

  /** On a bus where neither engine has subscribed anything yet,
      `initialize` appends to each type's list exactly that type's engine
      handlers and keeps what was there, in front. */
  lemma InitListeners(b: Bus, t: EventType)
    requires forall i :: 0 <= i < |InitRegistrations| ==> KeyOf(InitRegistrations[i]) !in b.subscriptions
    ensures ListenersFor(SubscribeAll(b, InitRegistrations), t) == ListenersFor(b, t) + InitHandlers(t)
  {
    SubscribeAllOrder(b, InitRegistrations, t);
    InitKeysDistinct();
    KeptFresh(b.subscriptions, InitRegistrations, t);
    InitHandlersMatch(t);
  }

  /** None of `initialize`'s keys is among those the start-up code
      registered before it. */
  lemma InitKeysFresh(ui: UserInterface)
    ensures forall i :: 0 <= i < |InitRegistrations| ==> KeyOf(InitRegistrations[i]) !in ShippedKeys(ui)
  {
    assert |"Board"| != |"RuleEngine"| && |"Main"| != |"RuleEngine"|;
    assert |"Board"| != |"GameEngine"| && |"Main"| != |"GameEngine"|;
  }

  /** On a bus holding exactly the start-up keys, `initialize` appends its
      handlers for each type after what was there. */
  lemma InitAfterStartup(b: Bus, ui: UserInterface, t: EventType)
    requires b.subscriptions == ShippedKeys(ui)
    ensures ListenersFor(SubscribeAll(b, InitRegistrations), t) == ListenersFor(b, t) + InitHandlers(t)
  {
    InitKeysFresh(ui);
    InitListeners(b, t);
  }

  /** `initialize` on a bus holding the start-up keys: the rule engine's
      `checkGameOver` goes after the board's dispatch and the redraw on
      moves, and take-offs and the interface's types keep their lists. */
  lemma InitKeepsStartupLists(b: Bus, ui: UserInterface, t: EventType)
    requires b.subscriptions == ShippedKeys(ui)
    requires t == TChessmanMoved ==> ListenersFor(b, t) == [BoardOnChessmanMoved, Render("Main")]
    requires t == TChessmanTakeOff ==> ListenersFor(b, t) == [BoardOnChessmanMoved]
    requires Shows(ui, t) ==> ListenersFor(b, t) == [Render(UiSubscriber(ui, t))]
    ensures var r := SubscribeAll(b, InitRegistrations);
      && (t == TChessmanMoved ==> ListenersFor(r, t) == [BoardOnChessmanMoved, Render("Main"), RuleCheckGameOver])
      && (t == TChessmanTakeOff ==> ListenersFor(r, t) == [BoardOnChessmanMoved])
      && (Shows(ui, t) ==> ListenersFor(r, t) == [Render(UiSubscriber(ui, t))])
  {
    InitAfterStartup(b, ui, t);
    if t == TChessmanMoved {
      assert InitHandlers(t) == [RuleCheckGameOver];
    } else if t == TChessmanTakeOff || Shows(ui, t) {
      assert InitHandlers(t) == [];
    }
  }

  /** `initialize` on a bus holding the start-up keys, where only moves,
      take-offs and the interface's types have listeners: each engine type
      gets exactly its handler and every other type stays empty. */
  lemma InitFillsEngineLists(b: Bus, ui: UserInterface, t: EventType)
    requires b.subscriptions == ShippedKeys(ui)
    requires t != TChessmanMoved && t != TChessmanTakeOff && !Shows(ui, t) ==> ListenersFor(b, t) == []
    ensures var r := SubscribeAll(b, InitRegistrations);
      && (t == TDiceRolled ==> ListenersFor(r, t) == [RuleOnDiceRolled])
      && (t == TChessmanOverEnd ==> ListenersFor(r, t) == [RuleOnChessmanOverEnd])
      && (t == TEndTurn ==> ListenersFor(r, t) == [EngineOnEndTurn])
      && (t == TGrantNewTurn ==> ListenersFor(r, t) == [EngineOnGrantNewTurn])
      && (!Shows(ui, t) && t !in {TChessmanMoved, TChessmanTakeOff, TDiceRolled, TChessmanOverEnd, TEndTurn, TGrantNewTurn} ==>
            ListenersFor(r, t) == [])
  {
    InitAfterStartup(b, ui, t);
  }

  /** `initialize` on the bus the start-up code built, whichever interface
      runs: every handler is subscribed once, the board reacts to a move
      before the rule engine's `checkGameOver` does, with the redraw
      callback in between, the interface's display handlers stay as they
      were, and no other type has a listener. */
  lemma ShippedWiring(ui: UserInterface, t: EventType)
    ensures var r := SubscribeAll(ShippedBus(ui), InitRegistrations);
      && (t == TChessmanMoved ==> ListenersFor(r, t) == [BoardOnChessmanMoved, Render("Main"), RuleCheckGameOver])
      && (t == TChessmanTakeOff ==> ListenersFor(r, t) == [BoardOnChessmanMoved])
      && (t == TDiceRolled ==> ListenersFor(r, t) == [RuleOnDiceRolled])
      && (t == TChessmanOverEnd ==> ListenersFor(r, t) == [RuleOnChessmanOverEnd])
      && (t == TEndTurn ==> ListenersFor(r, t) == [EngineOnEndTurn])
      && (t == TGrantNewTurn ==> ListenersFor(r, t) == [EngineOnGrantNewTurn])
      && (Shows(ui, t) ==> ListenersFor(r, t) == [Render(UiSubscriber(ui, t))])
      && (!Shows(ui, t) && t !in {TChessmanMoved, TChessmanTakeOff, TDiceRolled, TChessmanOverEnd, TEndTurn, TGrantNewTurn} ==>
            ListenersFor(r, t) == [])
  {
    ShippedBusShape(ui, t);
    InitKeepsStartupLists(ShippedBus(ui), ui, t);
    InitFillsEngineLists(ShippedBus(ui), ui, t);
  }
}
