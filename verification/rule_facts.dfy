/** What the rule engine's handlers do once the chain reaches them: the
    overshoot bounce, the end-of-game check, the choice among the offered
    options and the two kinds of action. */
module RuleFacts {
  import opened Base
  import opened Entities
  import opened Events
  import opened DefaultRules
  import opened Actions
  import opened Engine
  import opened EngineFacts
  import opened MapProviders

  /** `onChessmanOverEnd`: one bounce message, then `setPosition` to the
      end cell minus the cells the piece went over. */
  lemma OnOverEndSpec(w: World, c: ChessmanRef, end: int, overSteps: int)
    ensures OnOverEnd(w, c, end, overSteps) ==
      SetPosition(w.(trace := w.trace + [BlockEffect(c, OverEndBounce(overSteps))]), c, end - overSteps)
  {
    PublishPassive(w, BlockEffect(c, OverEndBounce(overSteps)));
  }

  /** `checkGameOver`: a finished game is left alone, and so is one
      nobody has won yet; otherwise the first winner in roster order is
      recorded, the game is over and `GameOver` naming that winner is the
      one event added. */
  lemma CheckGameOverSpec(w: World)
    ensures w.state.gameOver ==> CheckGameOver(w) == w
    ensures (forall i :: 0 <= i < |w.players| ==> !w.players[i].isWinner) ==> CheckGameOver(w) == w
    ensures !w.state.gameOver && (exists i :: 0 <= i < |w.players| && w.players[i].isWinner) ==>
      exists i ::
        && 0 <= i < |w.players| && w.players[i].isWinner
        && (forall j :: 0 <= j < i ==> !w.players[j].isWinner)
        && CheckGameOver(w) ==
             w.(state := w.state.(winner := Some(i), gameOver := true),
                trace := w.trace + [GameOver(Some(i))])
  {
    IsGameOverSpec(w.players);
    GetWinnerSpec(w.players);
    if !w.state.gameOver && IsGameOver(w.players) {
      var winner := GetWinner(w.players);
      PublishPassive(w.(state := w.state.(winner := winner, gameOver := true)), GameOver(winner));
    }
  }

  /** The options `onDiceRolled` offers the player who rolled. */
  function OptionsOf(w: World, player: nat, dice: int): seq<Action>
    requires player < |w.players|
  {
    AnalyzeActions(w.players[player], dice, EndPosition(w.mapProvider, w.players[player].playerId))
  }

  /** `onDiceRolled` without a choice to make: nothing happens for an
      unknown player or when nothing is offered, and a player who never
      names an option leaves everything as it was, answers used up. */
  lemma OnDiceRolledIdle(w: World, player: nat, dice: int)
    ensures player >= |w.players| ==> OnDiceRolled(w, player, dice) == w
    ensures player < |w.players| && |OptionsOf(w, player, dice)| == 0 ==> OnDiceRolled(w, player, dice) == w
    ensures
      && player < |w.players| && |OptionsOf(w, player, dice)| > 0
      && (forall j :: 0 <= j < |w.answers| ==> !(0 <= w.answers[j] < |OptionsOf(w, player, dice)|))
      ==> OnDiceRolled(w, player, dice) == w.(answers := [])
  {
    if player < |w.players| {
      ChooseIndexValid(w.answers, |OptionsOf(w, player, dice)|);
    }
  }

  /** `onDiceRolled` with options and an answer naming one: the answers
      are read up to the first one that indexes an option, and that
      option is carried out with the answers after it still to come. */
  lemma OnDiceRolledChoice(w: World, player: nat, dice: int, j: nat)
    requires player < |w.players| && j < |w.answers| && 0 <= w.answers[j] < |OptionsOf(w, player, dice)|
    ensures exists k ::
      && 0 <= k <= j && 0 <= w.answers[k] < |OptionsOf(w, player, dice)|
      && (forall i :: 0 <= i < k ==> !(0 <= w.answers[i] < |OptionsOf(w, player, dice)|))
      && OnDiceRolled(w, player, dice) ==
           ExecuteAction(w.(answers := w.answers[k + 1..]), player, dice, OptionsOf(w, player, dice)[w.answers[k]])
  {
    var options := OptionsOf(w, player, dice);
    ChooseIndexValid(w.answers, |options|);
    var r := ChooseIndex(w.answers, |options|);
    var k := |w.answers| - |r.value.1| - 1;
    assert OnDiceRolled(w, player, dice) == ExecuteAction(w.(answers := w.answers[k + 1..]), player, dice, options[w.answers[k]]);
  }

  /** A take-off option writes the owner's start cell through
      `setPosition`, which reports the move, and only after that is
      `ChessmanTakeOff` published for the piece. */
  lemma ExecuteTakeOff(w: World, player: nat, dice: int, index: nat)
    requires Valid(w, ChessmanRef(player, index))
    ensures exists k1, k2 ::
      && |w.trace| <= k1 < k2 < |ExecuteAction(w, player, dice, TakeOffAction(index)).trace|
      && ExecuteAction(w, player, dice, TakeOffAction(index)).trace[k1] ==
           ChessmanMoved(ChessmanRef(player, index), StartOf(w, ChessmanRef(player, index)))
      && ExecuteAction(w, player, dice, TakeOffAction(index)).trace[k2] == ChessmanTakeOff(ChessmanRef(player, index))
  {
    var c := ChessmanRef(player, index);
    var start := StartOf(w, c);
    SetPositionReports(w, c, start);
    var w1 := SetPosition(w, c, start);
    var k1 :| |w.trace| <= k1 < |w1.trace| && w1.trace[k1] == ChessmanMoved(c, start);
    var r := Publish(w1, ChessmanTakeOff(c));
    assert ExecuteAction(w, player, dice, TakeOffAction(index)) == r;
    assert r.trace[k1] == w1.trace[k1] && r.trace[|w1.trace|] == ChessmanTakeOff(c);
  }
}
