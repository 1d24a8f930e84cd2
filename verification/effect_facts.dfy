/** What each cell effect does when the board runs it: which message it
    shows, what it writes or moves, and what it leaves alone. */
module EffectFacts {
  import opened Base
  import opened Entities
  import opened Events
  import opened EventBus
  import opened DefaultRules
  import opened Engine
  import opened EngineFacts

  /** Every piece of the owner of `c` is at or past the owner's end. */
  predicate AllFinished(w: World, c: ChessmanRef)
    requires Valid(w, c)
  {
    forall j :: 0 <= j < |w.players[c.player].chessmen| ==>
      w.players[c.player].chessmen[j].position >= EndOf(w, c)
  }

  /** The count of finished pieces is the whole fleet exactly when every
      piece is finished, and zero exactly when none is. */
  lemma {:induction false} FinishedSpec(cs: seq<Chessman>, end: int)
    ensures Finished(cs, end) == |cs| <==> forall j :: 0 <= j < |cs| ==> cs[j].position >= end
    ensures Finished(cs, end) == 0 <==> forall j :: 0 <= j < |cs| ==> cs[j].position < end
    decreases |cs|
  {
    if |cs| > 0 {
      FinishedSpec(cs[1..], end);
      assert forall j :: 0 < j < |cs| ==> cs[j] == cs[1..][j - 1];
    }
  }

  /** The message a landing on the destination shows. */
  function ProgressNote(w: World, c: ChessmanRef): Event
    requires Valid(w, c)
  {
    BlockEffect(c, DestinationProgress(Finished(w.players[c.player].chessmen, EndOf(w, c)),
                                       |w.players[c.player].chessmen|))
  }

  /** The owner of `c` marked winner, and the game over with that owner
      recorded as winner. */
  function Won(w: World, c: ChessmanRef): World
    requires Valid(w, c)
  {
    w.(players := w.players[c.player := SetWinner(w.players[c.player]).0],
       state := w.state.(winner := Some(c.player), gameOver := true))
  }

  lemma DestinationClosed(w: World, c: ChessmanRef)
    requires Valid(w, c)
    ensures var w1 := w.(trace := w.trace + [ProgressNote(w, c)]);
      LandOnDestination(w, c) == if AllFinished(w, c) then Won(w1, c) else w1
  {
    FinishedSpec(w.players[c.player].chessmen, EndOf(w, c));
    PublishPassive(w, ProgressNote(w, c));
  }

  /** `Destination.onLand` shows exactly one message, with the owner's
      count of finished pieces out of all of them. */
  lemma DestinationMessage(w: World, c: ChessmanRef)
    requires Valid(w, c)
    ensures LandOnDestination(w, c).trace ==
      w.trace + [BlockEffect(c, DestinationProgress(Finished(w.players[c.player].chessmen, EndOf(w, c)),
                                                    |w.players[c.player].chessmen|))]
  {
    DestinationClosed(w, c);
  }

  /** `Destination.onLand` never moves a piece. */
  lemma DestinationKeepsPieces(w: World, c: ChessmanRef)
    requires Valid(w, c)
    ensures forall d :: Valid(w, d) ==>
      Valid(LandOnDestination(w, c), d) && Pos(LandOnDestination(w, c), d) == Pos(w, d)
  {
    DestinationClosed(w, c);
  }

  /** `Destination.onLand` decides the game exactly when every piece of
      the owner is finished: the owner is marked winner, recorded as the
      winner and the game is over; otherwise the state and the roster are
      as they were. */
  lemma DestinationOutcome(w: World, c: ChessmanRef)
    requires Valid(w, c)
    ensures AllFinished(w, c) ==>
      && LandOnDestination(w, c).players[c.player].isWinner
      && LandOnDestination(w, c).state.winner == Some(c.player)
      && LandOnDestination(w, c).state.gameOver
    ensures !AllFinished(w, c) ==>
      LandOnDestination(w, c).state == w.state && LandOnDestination(w, c).players == w.players
  {
    DestinationClosed(w, c);
  }

  /** With the board's listener subscribed before the rule engine's, a
      winning landing has already ended the game when `checkGameOver`
      runs, so that check does nothing and publishes no `GameOver`. */
  lemma DestinationPreemptsCheck(w: World, c: ChessmanRef)
    requires Valid(w, c) && AllFinished(w, c)
    ensures CheckGameOver(LandOnDestination(w, c)) == LandOnDestination(w, c)
  {
    DestinationOutcome(w, c);
  }

  /** `Mine.onLand`: when the input ends before a valid answer the prompt
      throws and nothing is shown; otherwise, with a current player, one
      message, then `setPosition` to the hangar, and without one, naming
      the player throws after the prompt. */
  lemma MineSpec(w: World, c: ChessmanRef)
    requires Valid(w, c)
    ensures IgnoredChoice(w.answers, BlockPromptOptions).None? ==> LandOnMine(w, c) == (w.(answers := []), true)
    ensures IgnoredChoice(w.answers, BlockPromptOptions).Some? ==>
      var rest := IgnoredChoice(w.answers, BlockPromptOptions).value;
      && (w.state.currentPlayer.None? ==> LandOnMine(w, c) == (w.(answers := rest), true))
      && (w.state.currentPlayer.Some? ==>
            LandOnMine(w, c) ==
              (SetPosition(w.(answers := rest, trace := w.trace + [BlockEffect(c, MineHit)]), c, Hangar), false))
  {
    var p := IgnoredChoice(w.answers, BlockPromptOptions);
    if p.Some? {
      PublishPassive(w.(answers := p.value), BlockEffect(c, MineHit));
    }
  }

  /** `SpeedUp.onLand` (factor 2) and `SlowDown.onLand` (factor -2):
      without a current player, naming the player throws before anything
      is shown; with one, one message, then a move by the factor times the
      turn's dice value. */
  lemma BoostSpec(w: World, c: ChessmanRef, factor: int)
    requires Valid(w, c)
    ensures w.state.currentPlayer.None? ==> LandOnBoost(w, c, factor) == (w, true)
    ensures w.state.currentPlayer.Some? ==>
      LandOnBoost(w, c, factor) ==
        (MoveChessman(w.(trace := w.trace + [BlockEffect(c, if factor > 0 then SpeedUpFired else SlowDownFired)]),
                      c, factor * w.state.currentDiceValue).0, false)
  {
    if w.state.currentPlayer.Some? {
      PublishPassive(w, BlockEffect(c, if factor > 0 then SpeedUpFired else SlowDownFired));
    }
  }

  /** `Teleport.onLand`: when the input ends before a valid answer the
      prompt throws and nothing is shown; otherwise, with an end cell
      above 0, one message naming the drawn target, which lies below the
      end cell, then `setPosition` to that target, and with an end cell of
      0 or less the draw throws after the prompt. */
  lemma TeleportSpec(w: World, c: ChessmanRef)
    requires Valid(w, c)
    ensures IgnoredChoice(w.answers, BlockPromptOptions).None? ==> LandOnTeleport(w, c) == (w.(answers := []), true)
    ensures IgnoredChoice(w.answers, BlockPromptOptions).Some? ==>
      var rest := IgnoredChoice(w.answers, BlockPromptOptions).value;
      && (EndOf(w, c) <= 0 ==> LandOnTeleport(w, c) == (w.(answers := rest), true))
      && (EndOf(w, c) > 0 ==>
            var (target, g) := TeleportDraw(w.teleportRng, EndOf(w, c), Pos(w, c)).value;
            && 0 <= target < EndOf(w, c)
            && LandOnTeleport(w, c) ==
                 (SetPosition(w.(answers := rest, teleportRng := g,
                                 trace := w.trace + [BlockEffect(c, Teleported(target))]), c, target), false))
  {
    var p := IgnoredChoice(w.answers, BlockPromptOptions);
    if p.Some? && EndOf(w, c) > 0 {
      var (target, g) := TeleportDraw(w.teleportRng, EndOf(w, c), Pos(w, c)).value;
      PublishPassive(w.(answers := p.value, teleportRng := g), BlockEffect(c, Teleported(target)));
    }
  }

  /** Lucky outcome 0 for a piece before its end: the drawn cell lies
      after the current one and no further than the end. Without a current
      player, naming the player throws after the draw; with one, one
      message, then a forward move to that cell, which never overshoots. */
  lemma LuckyStepAheadSpec(w: World, c: ChessmanRef)
    requires Valid(w, c) && Pos(w, c) < EndOf(w, c)
    ensures
      var (target, g) := LuckyDraw(w.luckyRng, EndOf(w, c), Pos(w, c)).value;
      && Pos(w, c) < target <= EndOf(w, c)
      && (w.state.currentPlayer.None? ==> LuckyStepAhead(w, c) == (w.(luckyRng := g), true))
      && (w.state.currentPlayer.Some? ==>
            LuckyStepAhead(w, c) ==
              (MoveChessman(w.(luckyRng := g, trace := w.trace + [BlockEffect(c, LuckyAdvance(target - Pos(w, c)))]),
                            c, target - Pos(w, c)).0, false))
  {
    var (target, g) := LuckyDraw(w.luckyRng, EndOf(w, c), Pos(w, c)).value;
    if w.state.currentPlayer.Some? {
      PublishPassive(w.(luckyRng := g), BlockEffect(c, LuckyAdvance(target - Pos(w, c))));
    }
  }

  /** Lucky outcome 0 for a piece at or past its end: the draw throws and
      nothing happens. */
  lemma LuckyStepAheadAtEnd(w: World, c: ChessmanRef)
    requires Valid(w, c) && Pos(w, c) >= EndOf(w, c)
    ensures LuckyStepAhead(w, c) == (w, true)
  {
  }

  /** Lucky outcome 1: without a current player the check throws before
      anything is published; with one, `GrantNewTurn` then one message; the
      engine's pending extra turn is raised when it listens, and nothing
      else changes, no piece included. */
  lemma LuckyBonusTurnSpec(w: World, c: ChessmanRef)
    ensures w.state.currentPlayer.None? ==> LuckyBonusTurn(w, c) == (w, true)
    ensures w.state.currentPlayer.Some? ==>
      LuckyBonusTurn(w, c) ==
        (w.(grantFlag := w.grantFlag || EngineOnGrantNewTurn in ListenersFor(w.bus, TGrantNewTurn),
            trace := w.trace + [GrantNewTurn(c), BlockEffect(c, LuckyExtraTurn)]), false)
  {
    if w.state.currentPlayer.None? {
      return;
    }
    PublishGrant(w, c);
    var w1 := Publish(w, GrantNewTurn(c));
    PublishPassive(w1, BlockEffect(c, LuckyExtraTurn));
    assert w1.trace + [BlockEffect(c, LuckyExtraTurn)] == w.trace + [GrantNewTurn(c), BlockEffect(c, LuckyExtraTurn)];
    assert LuckyBonusTurn(w, c) == (Publish(w1, BlockEffect(c, LuckyExtraTurn)), false);
  }

  /** Lucky outcome 2: when the input ends before a valid answer the second
      prompt throws and nothing is shown; otherwise a draw of 0 out of 3
      with a current player announces the jackpot and sets the piece to
      its end cell, a draw of 0 without one throws when naming the player,
      and any other draw only shows the no-prize message. */
  lemma LuckyJackpotSpec(w: World, c: ChessmanRef)
    requires Valid(w, c)
    ensures IgnoredChoice(w.answers, BlockPromptOptions).None? ==> LuckyJackpot(w, c) == (w.(answers := []), true)
    ensures IgnoredChoice(w.answers, BlockPromptOptions).Some? ==>
      var w1 := w.(answers := IgnoredChoice(w.answers, BlockPromptOptions).value);
      var (draw, g) := NextInt(w1.luckyRng, 3).value;
      && (draw != 0 ==>
            LuckyJackpot(w, c) == (w1.(luckyRng := g, trace := w.trace + [BlockEffect(c, LuckyNoPrize)]), false))
      && (draw == 0 && w.state.currentPlayer.None? ==> LuckyJackpot(w, c) == (w1.(luckyRng := g), true))
      && (draw == 0 && w.state.currentPlayer.Some? ==>
            LuckyJackpot(w, c) ==
              (SetPosition(w1.(luckyRng := g, trace := w.trace + [BlockEffect(c, LuckyToEnd)]), c, EndOf(w, c)), false))
  {
    var p := IgnoredChoice(w.answers, BlockPromptOptions);
    if p.Some? {
      var w1 := w.(answers := p.value);
      var (draw, g) := NextInt(w1.luckyRng, 3).value;
      PublishPassive(w1.(luckyRng := g), BlockEffect(c, if draw != 0 then LuckyNoPrize else LuckyToEnd));
    }
  }
}
