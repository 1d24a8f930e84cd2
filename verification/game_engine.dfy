/** `GameEngine`: setting a game up, the lifecycle switches, and one turn:
    move on to the next player, roll, let the rule engine act on the roll,
    and end the turn. */
module GameEngines {
  import opened Base
  import opened Entities
  import opened Events
  import opened EventBus
  import opened GameStates
  import opened DefaultRules
  import opened Dice
  import opened Engine
  import opened EngineFacts
  import opened Wiring

  /** The message `initialize` rejects an empty roster with. */
  const EmptyRoster := "玩家列表不能为空"

  /** `start`: a running game is left alone; otherwise the game runs and
      `GameStarted` is announced, which no handler reacts to. */
  function Start(w: World): (r: World)
    ensures r.state.running
    ensures w.state.running ==> r == w
    ensures !w.state.running ==> r == w.(state := w.state.(running := true), trace := w.trace + [GameStarted])
  {
    if w.state.running then w
    else
      var w1 := w.(state := w.state.(running := true));
      PublishPassive(w1, GameStarted);
      Publish(w1, GameStarted)
  }

  /** `stop`: acts only on a running game, which stops and announces it. */
  function Stop(w: World): (r: World)
    ensures !r.state.running
    ensures !w.state.running ==> r == w
    ensures w.state.running ==> r == w.(state := w.state.(running := false), trace := w.trace + [GameStopped])
  {
    if !w.state.running then w
    else
      var w1 := w.(state := w.state.(running := false));
      PublishPassive(w1, GameStopped);
      Publish(w1, GameStopped)
  }

  /** `pause`: acts only on a running game, paused or not; each call on a
      running game announces `GamePaused` again. */
  function Pause(w: World): (r: World)
    ensures !w.state.running ==> r == w
    ensures w.state.running ==> r == w.(state := w.state.(paused := true), trace := w.trace + [GamePaused])
  {
    if !w.state.running then w
    else
      var w1 := w.(state := w.state.(paused := true));
      PublishPassive(w1, GamePaused);
      Publish(w1, GamePaused)
  }

  /** `resume`: acts only on a game that is both running and paused. */
  function Resume(w: World): (r: World)
    ensures !(w.state.running && w.state.paused) ==> r == w
    ensures w.state.running && w.state.paused ==>
      r == w.(state := w.state.(paused := false), trace := w.trace + [GameResumed])
  {
    if !w.state.running || !w.state.paused then w
    else
      var w1 := w.(state := w.state.(paused := false));
      PublishPassive(w1, GameResumed);
      Publish(w1, GameResumed)
  }

  /** Stopping a game just started gives back the world it started from,
      with both announcements recorded. */
  lemma StartStop(w: World)
    requires !w.state.running
    ensures Stop(Start(w)) == w.(trace := w.trace + [GameStarted, GameStopped])
  {
    assert (w.trace + [GameStarted]) + [GameStopped] == w.trace + [GameStarted, GameStopped];
  }

  /** Resuming a game just paused gives back the world it was paused in,
      with both announcements recorded. */
  lemma PauseResume(w: World)
    requires w.state.running && !w.state.paused
    ensures Resume(Pause(w)) == w.(trace := w.trace + [GamePaused, GameResumed])
  {
    assert (w.trace + [GamePaused]) + [GameResumed] == w.trace + [GamePaused, GameResumed];
  }

  /** `initialize`: an empty roster is refused. Otherwise a running game
      is stopped first, the roster is installed, the state is reset, the
      rule engine's and the engine's handlers are subscribed, and
      `GameInitialized` is announced. The engine's pending extra-turn flag
      is not touched. */
  function Initialize(w: World, players: seq<Player>): (r: Result<World, string>)
    ensures r.Err? <==> |players| == 0
    ensures r.Err? ==> r.error == EmptyRoster
    ensures r.Ok? ==>
      r.value == Stop(w).(players := players, state := NewGameState(),
                          bus := SubscribeAll(w.bus, InitRegistrations),
                          trace := Stop(w).trace + [GameInitialized(|players|)])
  {
    if |players| == 0 then Err(EmptyRoster)
    else
      var w1 := Stop(w);
      var w2 := w1.(players := players, state := Reset(w1.state), bus := SubscribeAll(w1.bus, InitRegistrations));
      PublishPassive(w2, GameInitialized(|players|));
      Ok(Publish(w2, GameInitialized(|players|)))
  }

  /** A rematch initialises again on the same bus: the keys are all there
      already, so no handler is subscribed twice. */
  lemma RematchKeepsBus(w: World, players: seq<Player>, again: seq<Player>)
    requires |players| > 0 && |again| > 0
    ensures Initialize(Initialize(w, players).value, again).value.bus == Initialize(w, players).value.bus
  {
    var b := SubscribeAll(w.bus, InitRegistrations);
    SubscribeAllKeys(w.bus, InitRegistrations);
    ResubscribeNoOp(b, InitRegistrations);
  }

  /** The player-advance step of `turnStart` for a roster of `n`: without
      a pending extra turn the index moves on by one, wrapping to 0, and
      the turn number goes up exactly when it wraps; with one, the same
      player plays again. The pending extra turn is used up either way and
      nothing else changes. */
  function Advance(s: GameState, n: nat): (r: GameState)
    requires n > 0
    ensures r == s.(currentPlayerIndex := r.currentPlayerIndex, turnNumber := r.turnNumber, extraTurn := false)
    ensures s.extraTurn ==> r.currentPlayerIndex == s.currentPlayerIndex && r.turnNumber == s.turnNumber
    ensures !s.extraTurn && -1 <= s.currentPlayerIndex < n ==>
      r.currentPlayerIndex == (s.currentPlayerIndex + 1) % n
    ensures !s.extraTurn ==> (r.turnNumber == s.turnNumber + 1 <==> r.currentPlayerIndex == 0)
    ensures !s.extraTurn ==> r.turnNumber == s.turnNumber || r.turnNumber == s.turnNumber + 1
  {
    var s1 :=
      if s.extraTurn then s
      else
        var i := JMod(s.currentPlayerIndex + 1, n);
        s.(currentPlayerIndex := i, turnNumber := if i == 0 then s.turnNumber + 1 else s.turnNumber);
    s1.(extraTurn := false)
  }

  /** `k` advances in a row. */
  function AdvanceN(s: GameState, n: nat, k: nat): GameState
    requires n > 0
    decreases k
  {
    if k == 0 then s else Advance(AdvanceN(s, n, k - 1), n)
  }

  /** Java's remainder of a count of at most `n` by `n`. */
  lemma ModUpTo(a: int, n: int)
    requires n > 0 && 0 <= a <= n
    ensures a % n == (if a == n then 0 else a)
  {
  }

  /** From a reset state, turns go round the roster in order: the `k`-th
      turn belongs to player `(k-1) mod n`, in round `(k-1) div n`,
      written as the division equation `k-1 = (turn - 2) * n + index`.
      Because the index starts one before player 0, the very first turn
      already counts as turn 2. */
  lemma {:induction false} RoundRobin(s: GameState, n: nat, k: nat)
    requires n > 0 && k > 0 && IsInitial(s)
    ensures 0 <= AdvanceN(s, n, k).currentPlayerIndex < n
    ensures k - 1 == (AdvanceN(s, n, k).turnNumber - 2) * n + AdvanceN(s, n, k).currentPlayerIndex
    ensures !AdvanceN(s, n, k).extraTurn
    decreases k
  {
    if k == 1 {
      assert AdvanceN(s, n, 0) == s;
      ModUpTo(0, n);
    } else {
      RoundRobin(s, n, k - 1);
      var prev := AdvanceN(s, n, k - 1);
      ModUpTo(prev.currentPlayerIndex + 1, n);
      assert (prev.turnNumber + 1 - 2) * n == (prev.turnNumber - 2) * n + n;
    }
  }

  /** The state `turnStart` can always act on: a non-empty roster, an
      index that is in range or the one before player 0, and no extra turn
      pending before any turn was played. */
  predicate Ready(w: World)
  {
    && |w.players| > 0
    && -1 <= w.state.currentPlayerIndex < |w.players|
    && (w.state.currentPlayerIndex == -1 ==> !w.state.extraTurn)
  }

  /** `turnStart`: with no players nothing happens. Otherwise the turn
      moves on, the player at the new index becomes the current player
      (an index outside the roster throws there), `TurnStarted` is
      announced, the die is rolled and stored, and `DiceRolled` hands the
      roll to the rule engine. The flag tells whether it threw. */
  function TurnStart(w: World): (r: (World, bool))
  {
    var n := |w.players|;
    if n == 0 then (w, false)
    else
      var s := Advance(w.state, n);
      if !(0 <= s.currentPlayerIndex < n) then (w.(state := s), true)
      else
        var cp := s.currentPlayerIndex as nat;
        var w1 := Publish(w.(state := s.(currentPlayer := Some(cp))), TurnStarted(cp));
        var (dice, g) := RollDefault(w1.diceRng);
        var w2 := w1.(state := w1.state.(currentDiceValue := dice), diceRng := g);
        (Publish(w2, DiceRolled(cp, dice)), false)
  }

  predicate Playable(s: GameState)
  {
    s.running && !s.paused && !s.gameOver
  }

  /** `playTurn`: only a running game that is neither paused nor over
      plays; the turn starts, and unless that threw, `EndTurn` carries the
      dice value the state holds. */
  function PlayTurn(w: World): (r: (World, bool))
    ensures !Playable(w.state) ==> r == (w, false)
  {
    if !Playable(w.state) then (w, false)
    else
      var (w1, thrown) := TurnStart(w);
      if thrown then (w1, true)
      else (Publish(w1, EndTurn(w1.state.currentDiceValue)), false)
  }

  /** A ready game never throws in `turnStart`, and one turn leaves it
      ready for the next, roster untouched. */
  lemma PlayTurnKeepsReady(w: World)
    requires Ready(w)
    ensures !PlayTurn(w).1
    ensures Ready(PlayTurn(w).0)
    ensures |PlayTurn(w).0.players| == |w.players|
  {
    if Playable(w.state) {
      var n := |w.players|;
      var s := Advance(w.state, n);
      assert 0 <= s.currentPlayerIndex < n;
    }
  }

  /** A successful `initialize` leaves a game ready to play. */
  lemma InitializeReady(w: World, players: seq<Player>)
    requires |players| > 0
    ensures Ready(Initialize(w, players).value)
  {
  }

  /** One turn of a ready, playable game: the next player in turn order
      becomes current and is announced first; then comes the roll, the
      first draw of the dice stream, in `DiceRolled`; `EndTurn` later
      carries that same value, which the state still holds at the end. */
  lemma PlayTurnDice(w: World)
    requires Ready(w) && Playable(w.state)
    ensures var r := PlayTurn(w).0;
      && r.state.currentPlayer.Some?
      && r.state.currentPlayer.value == Advance(w.state, |w.players|).currentPlayerIndex
      && r.state.currentDiceValue == RollDefault(w.diceRng).0
      && 1 <= r.state.currentDiceValue <= 6
      && |w.trace| + 2 <= |r.trace|
      && r.trace[|w.trace|] == TurnStarted(r.state.currentPlayer.value)
      && r.trace[|w.trace| + 1] == DiceRolled(r.state.currentPlayer.value, r.state.currentDiceValue)
      && EndTurn(r.state.currentDiceValue) in r.trace[|w.trace| + 2..]
  {
    var n := |w.players|;
    var s := Advance(w.state, n);
    var cp := s.currentPlayerIndex as nat;
    var w0 := w.(state := s.(currentPlayer := Some(cp)));
    PublishPassive(w0, TurnStarted(cp));
    var w1 := Publish(w0, TurnStarted(cp));
    var (dice, g) := RollDefault(w1.diceRng);
    var w2 := w1.(state := w1.state.(currentDiceValue := dice), diceRng := g);
    var w3 := Publish(w2, DiceRolled(cp, dice));
    var r := Publish(w3, EndTurn(dice));
    assert PlayTurn(w).0 == r;
    assert r.trace[|w.trace|] == w3.trace[|w.trace|] == w2.trace[|w.trace|];
    assert r.trace[|w.trace| + 1] == w3.trace[|w.trace| + 1];
    assert r.trace[|w3.trace|] == EndTurn(dice);
    assert r.trace[|w.trace| + 2..][|w3.trace| - |w.trace| - 2] == EndTurn(dice);
  }

  /** `onEndTurn` with a current player: an extra turn is pending
      afterwards exactly when one was already, the roll was a six or a
      cell asked for one; the cell's request is used up either way, and
      `TurnEnded` reports the player, the stored dice value and the
      decision. Without a current player nothing happens. */
  lemma OnEndTurnSpec(w: World, dice: int)
    ensures w.state.currentPlayer.None? ==> OnEndTurn(w, dice) == w
    ensures w.state.currentPlayer.Some? ==>
      OnEndTurn(w, dice) ==
        w.(state := w.state.(extraTurn := w.state.extraTurn || dice == 6 || w.grantFlag),
           grantFlag := false,
           trace := w.trace + [TurnEnded(w.state.currentPlayer.value, w.state.currentDiceValue,
                                         w.state.extraTurn || dice == 6 || w.grantFlag)])
  {
    if w.state.currentPlayer.Some? {
      var grant := ShouldGrantExtraTurn(dice) || w.grantFlag;
      var w1 := if grant then w.(state := w.state.(extraTurn := true), grantFlag := false) else w;
      PublishPassive(w1, TurnEnded(w.state.currentPlayer.value, w1.state.currentDiceValue, w1.state.extraTurn));
    }
  }
}
