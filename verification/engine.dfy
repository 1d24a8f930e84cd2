/** The synchronous heart of the game: publishing an event calls its
    listeners one after another, and the listeners move pieces, which
    publishes more events, which trigger cell effects, which move pieces
    again. All of it is one chain of calls on a single world value.

    The chain ends because every cell effect runs one level deeper than
    the landing that caused it and the board refuses to go deeper than the
    rule set's maximum; within one level every call is to a strictly
    smaller kind of step (`Budget`, then the level number, then the steps
    or listeners left). */
module Engine {
  import opened Base
  import opened Entities
  import opened Events
  import opened EventBus
  import opened GameStates
  import opened DefaultRules
  import opened Blocks
  import opened MapProviders
  import opened Actions

  /** Everything a call chain can read or change: the shared game state,
      the roster, the map, the subscriptions, the board's effect depth, the
      engine's pending extra-turn flag, the three random streams (the dice,
      the lucky cell's and the teleport cell's), the answers the player
      will give, and the events published so far. */
  datatype World = World(
    state: GameState,
    players: seq<Player>,
    mapProvider: MapProvider,
    bus: Bus,
    depth: nat,
    grantFlag: bool,
    diceRng: Rng,
    luckyRng: Rng,
    teleportRng: Rng,
    answers: seq<int>,
    trace: seq<Event>)

  predicate Valid(w: World, c: ChessmanRef)
  {
    c.player < |w.players| && c.index < |w.players[c.player].chessmen|
  }

  function Pos(w: World, c: ChessmanRef): int
    requires Valid(w, c)
  {
    w.players[c.player].chessmen[c.index].position
  }

  /** The end cell of the piece's owner. */
  function EndOf(w: World, c: ChessmanRef): int
    requires Valid(w, c)
  {
    EndPosition(w.mapProvider, w.players[c.player].playerId)
  }

  /** The start cell of the piece's owner. */
  function StartOf(w: World, c: ChessmanRef): int
    requires Valid(w, c)
  {
    StartPosition(w.mapProvider, w.players[c.player].playerId)
  }

  /** Two rosters agree on everything but positions and winner flags. */
  predicate SamePlayer(p: Player, q: Player)
  {
    && p.name == q.name && p.playerId == q.playerId && p.active == q.active
    && |p.chessmen| == |q.chessmen|
    && forall j :: 0 <= j < |p.chessmen| ==>
         p.chessmen[j].id == q.chessmen[j].id && p.chessmen[j].owner == q.chessmen[j].owner
  }

  predicate SameRoster(a: seq<Player>, b: seq<Player>)
  {
    |a| == |b| && forall i :: 0 <= i < |a| ==> SamePlayer(a[i], b[i])
  }

  /** Two states of the same map provider: the same kind of map with the
      same path length and player count, hence the same start and end
      cells. (The grid itself is built at most once: `GetMapStable`.) */
  predicate SameGeometry(a: MapProvider, b: MapProvider)
  {
    match a
    case SShapeProvider => b.SShapeProvider?
    case RandomProvider(m) => b.RandomProvider? && b.m.pathLength == m.pathLength && b.m.playerCount == m.playerCount
  }

  /** The turn bookkeeping no cell effect or rule handler touches. */
  function Bookkeeping(s: GameState): (bool, bool, Option<nat>, int, int, int)
  {
    (s.running, s.paused, s.currentPlayer, s.turnNumber, s.currentDiceValue, s.currentPlayerIndex)
  }

  /** What every step of a chain keeps: the depth it was entered at, the
      subscriptions, the events already published, who the players and
      pieces are, the map's grid and the turn bookkeeping; a finished game
      stays finished. */
  predicate Preserves(w: World, r: World)
  {
    && r.depth == w.depth
    && r.bus == w.bus
    && w.trace <= r.trace
    && SameRoster(w.players, r.players)
    && SameGeometry(w.mapProvider, r.mapProvider)
    && Bookkeeping(r.state) == Bookkeeping(w.state)
    && (w.state.gameOver ==> r.state.gameOver)
  }

  /** The silent write of the board's reflection: the piece's position
      changes and nothing else, no event is published. */
  function WithPos(w: World, c: ChessmanRef, p: int): (r: World)
    requires Valid(w, c)
    ensures Preserves(w, r)
    ensures r == w.(players := r.players)
    ensures Valid(r, c) && Pos(r, c) == p
    ensures forall d :: Valid(w, d) && d != c ==> Valid(r, d) && Pos(r, d) == Pos(w, d)
    ensures forall i :: 0 <= i < |w.players| ==> r.players[i].isWinner == w.players[i].isWinner
  {
    var pl := w.players[c.player];
    var piece := pl.chessmen[c.index];
    w.(players := w.players[c.player := pl.(chessmen := pl.chessmen[c.index := piece.(position := p)])])
  }

  /** Steps left before the board refuses to go deeper. */
  function Budget(w: World): nat
  {
    if w.depth < MaxBlockEffectDepth then MaxBlockEffectDepth - w.depth else 0
  }

  /** How far down the chain an event's handlers reach. */
  function Rank(e: Event): nat
  {
    match e
    case ChessmanMoved(_, _) => 1
    case ChessmanTakeOff(_) => 1
    case EndTurn(_) => 1
    case ChessmanOverEnd(_, _, _, _) => 2
    case DiceRolled(_, _) => 4
    case _ => 0
  }

  /** `publish`: the event is recorded, then every listener of its type
      runs, in subscription order, each on the world the previous one
      left. A listener that throws has its effects up to the throw kept and
      the next listener still runs. */
  function Publish(w: World, e: Event): (r: World)
    ensures Preserves(w, r)
    ensures w.trace + [e] <= r.trace
    decreases Budget(w), 10 * Rank(e) + 3, 0
  {
    Deliver(w.(trace := w.trace + [e]), e, ListenersFor(w.bus, TypeOf(e)))
  }

  function Deliver(w: World, e: Event, ls: seq<Listener>): (r: World)
    ensures Preserves(w, r)
    decreases Budget(w), 10 * Rank(e) + 2, |ls|
  {
    if |ls| == 0 then w
    else Deliver(Handle(w, ls[0], e), e, ls[1..])
  }

  /** One listener's reaction to one event. Each handler reacts to the
      event type it is registered for; a rendering callback only redraws. */
  function Handle(w: World, l: Listener, e: Event): (r: World)
    ensures Preserves(w, r)
    decreases Budget(w), 10 * Rank(e) + 1, 0
  {
    match l
    case BoardOnChessmanMoved =>
      (match e
       case ChessmanMoved(c, _) => Dispatch(w, c).0
       case ChessmanTakeOff(c) => Dispatch(w, c).0
       case _ => w)
    case RuleCheckGameOver =>
      if e.ChessmanMoved? then CheckGameOver(w) else w
    case RuleOnChessmanOverEnd =>
      if e.ChessmanOverEnd? then OnOverEnd(w, e.c, e.end, e.overSteps) else w
    case RuleOnDiceRolled =>
      if e.DiceRolled? then OnDiceRolled(w, e.player, e.dice) else w
    case EngineOnEndTurn =>
      if e.EndTurn? then OnEndTurn(w, e.dice) else w
    case EngineOnGrantNewTurn =>
      if e.GrantNewTurn? then w.(grantFlag := true) else w
    case Render(_) => w
  }

  /** `Board.onChessmanMoved`: at the maximum depth only a warning effect
      is published; otherwise the depth goes up by one, the piece's cell
      is looked up and its effect runs, and the depth is put back whatever
      happened. The flag tells whether the lookup or the effect threw. */
  function Dispatch(w: World, c: ChessmanRef): (r: (World, bool))
    ensures Preserves(w, r.0)
    decreases Budget(w), 5, 0
  {
    if !Valid(w, c) then (w, false)
    else if w.depth >= MaxBlockEffectDepth then (Publish(w, BlockEffect(c, DepthLimitReached)), false)
    else
      var (landing, mp) := LandingAt(w.mapProvider, Pos(w, c));
      match landing
      case OffMap => (w, false)
      case OutOfBounds => (w.(mapProvider := mp), true)
      case OnCell(b) =>
        var (r, thrown) := OnLand(w.(depth := w.depth + 1, mapProvider := mp), c, b);
        (r.(depth := w.depth), thrown)
  }

  /** `Chessman.setPosition`: the position is stored; a move animation is
      published when the piece was on the board and actually moves; then
      the piece reports that it moved. */
  function SetPosition(w: World, c: ChessmanRef, p: int): (r: World)
    ensures Preserves(w, r)
    decreases Budget(w), 15, 0
  {
    if !Valid(w, c) then w
    else
      var before := Pos(w, c);
      var w1 := WithPos(w, c, p);
      var w2 := if before != p && before != Hangar then Publish(w1, ChessmanMoveEasing(c, before, p)) else w1;
      Publish(w2, ChessmanMoved(c, p))
  }

  /** `Board.moveChessman`: no piece or no steps, nothing happens and the
      answer is false; forward and backward moves go one cell at a time. */
  function MoveChessman(w: World, c: ChessmanRef, steps: int): (r: (World, bool))
    ensures Preserves(w, r.0)
    decreases Budget(w), 31, 0
  {
    if !Valid(w, c) || steps == 0 then (w, false)
    else if steps > 0 then ForwardSteps(w, c, steps, 0, Pos(w, c), EndOf(w, c))
    else (BackwardSteps(w, c, -steps, 0, Pos(w, c)), true)
  }

  /** Step `i` of a forward move of `steps`, the piece having reached
      `cur`: a step past `end` publishes the overshoot with where the
      piece was aimed and stops with false; a step before the last is a
      silent write and an animation event; the last step is a full
      `setPosition`. */
  function ForwardSteps(w: World, c: ChessmanRef, steps: nat, i: nat, cur: int, end: int): (r: (World, bool))
    requires Valid(w, c) && i < steps
    ensures Preserves(w, r.0)
    decreases Budget(w), 30, steps - i
  {
    var next := cur + 1;
    if next > end then
      (Publish(w, ChessmanOverEnd(c, cur + (steps - i), end, cur + (steps - i) - end)), false)
    else if i < steps - 1 then
      var w1 := WithPos(w, c, next);
      var w2 := Publish(w1, ChessmanMoveEasing(c, Pos(w, c), next));
      ForwardSteps(w2, c, steps, i + 1, next, end)
    else (SetPosition(w, c, next), true)
  }

  /** Step `i` of a backward move of `steps`: one cell back but never below
      cell 0, silently except for the last step. */
  function BackwardSteps(w: World, c: ChessmanRef, steps: nat, i: nat, cur: int): (r: World)
    requires Valid(w, c) && i < steps
    ensures Preserves(w, r)
    decreases Budget(w), 30, steps - i
  {
    var next := if cur - 1 > 0 then cur - 1 else 0;
    if i < steps - 1 then
      var w1 := WithPos(w, c, next);
      var w2 := Publish(w1, ChessmanMoveEasing(c, Pos(w, c), next));
      BackwardSteps(w2, c, steps, i + 1, next)
    else SetPosition(w, c, next)
  }

  /** `RuleEngine.onChessmanOverEnd`: the rule set announces the bounce and
      the piece is set to the end plus the rule's correction. */
  function OnOverEnd(w: World, c: ChessmanRef, end: int, overSteps: int): (r: World)
    ensures Preserves(w, r)
    decreases Budget(w), 20, 0
  {
    var w1 := Publish(w, BlockEffect(c, OverEndBounce(overSteps)));
    SetPosition(w1, c, end + OverEndDelta(overSteps))
  }

  /** `RuleEngine.checkGameOver`: once the game is over nothing happens;
      otherwise, when some player has won, the first winner is recorded,
      the game is over and that is announced. */
  function CheckGameOver(w: World): (r: World)
    ensures Preserves(w, r)
    decreases Budget(w), 5, 0
  {
    if w.state.gameOver then w
    else if IsGameOver(w.players) then
      var winner := GetWinner(w.players);
      Publish(w.(state := w.state.(winner := winner, gameOver := true)), GameOver(winner))
    else w
  }

  /** `RuleEngine.onDiceRolled`: with no option nothing happens; otherwise
      the player is asked until the answer is an option's index and that
      option is carried out. A player who never gives a valid answer
      leaves the world as it was, answers used up. */
  function OnDiceRolled(w: World, player: nat, dice: int): (r: World)
    ensures Preserves(w, r)
    decreases Budget(w), 40, 0
  {
    if player >= |w.players| then w
    else
      var p := w.players[player];
      var options := AnalyzeActions(p, dice, EndPosition(w.mapProvider, p.playerId));
      if |options| == 0 then w
      else
        match ChooseIndex(w.answers, |options|)
        case None => w.(answers := [])
        case Some((k, rest)) =>
          ChooseIndexValid(w.answers, |options|);
          ExecuteAction(w.(answers := rest), player, dice, options[k])
  }

  /** `RuleEngine.executeAction`: a move option moves the piece by the
      dice value; a take-off option puts the piece on its owner's start
      cell and then announces the take-off. */
  function ExecuteAction(w: World, player: nat, dice: int, a: Action): (r: World)
    ensures Preserves(w, r)
    decreases Budget(w), 35, 0
  {
    var c := ChessmanRef(player, a.index);
    match a
    case MoveAction(_, _) => MoveChessman(w, c, dice).0
    case TakeOffAction(_) =>
      if !Valid(w, c) then w
      else Publish(SetPosition(w, c, StartOf(w, c)), ChessmanTakeOff(c))
  }

  /** `GameEngine.onEndTurn`: with a current player, an extra turn is
      granted when the rules grant one for this dice value or a cell asked
      for one, which uses up that request; then the end of the turn is
      announced. */
  function OnEndTurn(w: World, dice: int): (r: World)
    ensures Preserves(w, r)
    decreases Budget(w), 5, 0
  {
    match w.state.currentPlayer
    case None => w
    case Some(cp) =>
      var grant := ShouldGrantExtraTurn(dice) || w.grantFlag;
      var w1 := if grant then w.(state := w.state.(extraTurn := true), grantFlag := false) else w;
      Publish(w1, TurnEnded(cp, w1.state.currentDiceValue, w1.state.extraTurn))
  }

  /** `onLand` of the cell kind `b`, entered by the board one level deep,
      so never deeper than the rule set's maximum. The flag tells whether
      the effect threw. */
  function OnLand(w: World, c: ChessmanRef, b: Block): (r: (World, bool))
    requires 0 < w.depth <= MaxBlockEffectDepth
    ensures Preserves(w, r.0)
    decreases Budget(w), 50, 0
  {
    if !Valid(w, c) then (w, false)
    else
      match b
      case Start => (w, false)
      case Normal => (w, false)
      case Empty => (w, true)
      case Destination => (LandOnDestination(w, c), false)
      case Lucky => LandOnLucky(w, c)
      case Teleport => LandOnTeleport(w, c)
      case Mine => LandOnMine(w, c)
      case SpeedUp => LandOnBoost(w, c, 2)
      case SlowDown => LandOnBoost(w, c, -2)
  }

  /** How many of the pieces are at or past `end`. */
  function Finished(cs: seq<Chessman>, end: int): (n: nat)
    ensures n <= |cs|
    decreases |cs|
  {
    if |cs| == 0 then 0
    else (if cs[0].position >= end then 1 else 0) + Finished(cs[1..], end)
  }

  /** `Destination.onLand`: the owner's finished pieces are counted and
      shown; when all of them are finished the owner is marked winner, the
      state records the owner as winner and the game is over. */
  function LandOnDestination(w: World, c: ChessmanRef): (r: World)
    requires Valid(w, c)
    ensures Preserves(w, r)
    decreases Budget(w), 45, 0
  {
    var owner := w.players[c.player];
    var finished := Finished(owner.chessmen, EndOf(w, c));
    var w1 := Publish(w, BlockEffect(c, DestinationProgress(finished, |owner.chessmen|)));
    if finished == |owner.chessmen| then
      w1.(players := w1.players[c.player := SetWinner(w1.players[c.player]).0],
          state := w1.state.(winner := Some(c.player), gameOver := true))
    else w1
  }

  /** The redraw loop of the lucky and teleport cells: while the pick is
      the current cell or cell 0, and fewer than 50 redraws were made, draw
      again from `[offset, offset + bound)`. */
  function Redraw(g: Rng, bound: int, offset: int, cur: int, pick: int, attempts: nat): (r: (int, Rng))
    requires bound > 0 && attempts <= 50
    ensures offset <= pick < offset + bound ==> offset <= r.0 < offset + bound
    ensures pick != cur && pick != 0 ==> r == (pick, g)
    decreases 50 - attempts
  {
    if (pick == cur || pick == 0) && attempts < 50 then
      var (v, g') := NextInt(g, bound).value;
      Redraw(g', bound, offset, cur, v + offset, attempts + 1)
    else (pick, g)
  }

  /** `g2` is what is left of `g` after at most `k` draws. */
  predicate ConsumedAtMost(g: Rng, g2: Rng, k: int)
  {
    |g2.draws| <= |g.draws| && g2.draws == g.draws[|g.draws| - |g2.draws|..] && |g.draws| - |g2.draws| <= k
  }

  lemma ConsumedTrans(g: Rng, g1: Rng, g2: Rng, k: int)
    requires ConsumedAtMost(g, g1, 1) && ConsumedAtMost(g1, g2, k)
    ensures ConsumedAtMost(g, g2, k + 1)
  {
    assert g2.draws == g.draws[|g.draws| - |g1.draws|..][|g1.draws| - |g2.draws|..];
  }

  /** The redraw loop only consumes draws, at most one per remaining
      attempt. */
  lemma {:induction false} RedrawConsumes(g: Rng, bound: int, offset: int, cur: int, pick: int, attempts: nat)
    requires bound > 0 && attempts <= 50
    ensures ConsumedAtMost(g, Redraw(g, bound, offset, cur, pick, attempts).1, 50 - attempts)
    decreases 50 - attempts
  {
    if (pick == cur || pick == 0) && attempts < 50 {
      var (v, g') := NextInt(g, bound).value;
      assert ConsumedAtMost(g, g', 1);
      var r := Redraw(g', bound, offset, cur, v + offset, attempts + 1);
      assert Redraw(g, bound, offset, cur, pick, attempts) == r;
      RedrawConsumes(g', bound, offset, cur, v + offset, attempts + 1);
      ConsumedTrans(g, g', r.1, 50 - attempts - 1);
    } else {
      assert g.draws[0..] == g.draws;
    }
  }

  /** The draw of lucky outcome 0 for a piece at `cur` with end cell `end`:
      the target and the stream after the redraws, or `None` where the
      first draw throws. The target is after the current cell and no
      further than the end. */
  function LuckyDraw(g: Rng, end: int, cur: int): (r: Option<(int, Rng)>)
    ensures r.None? <==> end <= cur
    ensures r.Some? ==> cur < r.value.0 <= end
  {
    match NextInt(g, end - cur)
    case None => None
    case Some((v, g1)) => Some(Redraw(g1, end - cur, cur + 1, cur, v + cur + 1, 0))
  }

  /** The draw of a teleport with end cell `end`: the target and the
      stream after the redraws, or `None` where the first draw throws. The
      target is a cell below the end. */
  function TeleportDraw(g: Rng, end: int, cur: int): (r: Option<(int, Rng)>)
    ensures r.None? <==> end <= 0
    ensures r.Some? ==> 0 <= r.value.0 < end
  {
    match NextInt(g, end)
    case None => None
    case Some((v, g1)) => Some(Redraw(g1, end, 0, cur, v, 0))
  }

  /** Every prompt a cell shows offers three options. */
  const BlockPromptOptions: nat := 3

  /** `Lucky.onLand`: after a prompt whose answer is ignored, one of four
      outcomes is drawn: advance to a drawn cell up to the end, an extra
      turn, a one-in-three chance of going straight to the end, or
      nothing. Naming the current player throws when there is none, and
      the prompt throws when the input ends before a valid answer. */
  function LandOnLucky(w: World, c: ChessmanRef): (r: (World, bool))
    requires Valid(w, c)
    ensures Preserves(w, r.0)
    decreases Budget(w), 45, 0
  {
    match IgnoredChoice(w.answers, BlockPromptOptions)
    case None => (w.(answers := []), true)
    case Some(rest) =>
      var w0 := w.(answers := rest);
      var (branch, g) := NextInt(w0.luckyRng, 4).value;
      var w1 := w0.(luckyRng := g);
      if branch == 0 then LuckyStepAhead(w1, c)
      else if branch == 1 then LuckyBonusTurn(w1, c)
      else if branch == 2 then LuckyJackpot(w1, c)
      else (Publish(w1, BlockEffect(c, LuckyNoPrize)), false)
  }

  /** Lucky outcome 0: a target is drawn from the cells after the current
      one up to the end, redrawn while it is the current cell or cell 0,
      announced, and reached by a forward move. */
  function LuckyStepAhead(w: World, c: ChessmanRef): (r: (World, bool))
    requires Valid(w, c)
    ensures Preserves(w, r.0)
    decreases Budget(w), 44, 0
  {
    var cur := Pos(w, c);
    match LuckyDraw(w.luckyRng, EndOf(w, c), cur)
    case None => (w, true)
    case Some((target, g2)) =>
      var w1 := w.(luckyRng := g2);
      if w1.state.currentPlayer.None? then (w1, true)
      else
        var w2 := Publish(w1, BlockEffect(c, LuckyAdvance(target - cur)));
        (MoveChessman(w2, c, target - cur).0, false)
  }

  /** Lucky outcome 1: an extra turn is requested, then announced. */
  function LuckyBonusTurn(w: World, c: ChessmanRef): (r: (World, bool))
    ensures Preserves(w, r.0)
    decreases Budget(w), 44, 0
  {
    if w.state.currentPlayer.None? then (w, true)
    else (Publish(Publish(w, GrantNewTurn(c)), BlockEffect(c, LuckyExtraTurn)), false)
  }

  /** Lucky outcome 2: after a second ignored prompt, a draw of 0 out of 3
      sends the piece to its end cell; anything else only shows a
      message. */
  function LuckyJackpot(w: World, c: ChessmanRef): (r: (World, bool))
    requires Valid(w, c)
    ensures Preserves(w, r.0)
    decreases Budget(w), 44, 0
  {
    match IgnoredChoice(w.answers, BlockPromptOptions)
    case None => (w.(answers := []), true)
    case Some(rest) =>
      var w1 := w.(answers := rest);
      var (jackpot, g) := NextInt(w1.luckyRng, 3).value;
      var w2 := w1.(luckyRng := g);
      if jackpot != 0 then (Publish(w2, BlockEffect(c, LuckyNoPrize)), false)
      else if w2.state.currentPlayer.None? then (w2, true)
      else (SetPosition(Publish(w2, BlockEffect(c, LuckyToEnd)), c, EndOf(w2, c)), false)
  }

  /** `Teleport.onLand`: after an ignored prompt a target is drawn below
      the owner's end cell, redrawn while it is the current cell or cell 0,
      announced and written. A end cell of 0 or less makes the draw throw,
      and so does the end of input before a valid answer. */
  function LandOnTeleport(w: World, c: ChessmanRef): (r: (World, bool))
    requires Valid(w, c)
    ensures Preserves(w, r.0)
    decreases Budget(w), 45, 0
  {
    match IgnoredChoice(w.answers, BlockPromptOptions)
    case None => (w.(answers := []), true)
    case Some(rest) =>
      var w0 := w.(answers := rest);
      match TeleportDraw(w0.teleportRng, EndOf(w0, c), Pos(w0, c))
      case None => (w0, true)
      case Some((target, g2)) =>
        var w1 := w0.(teleportRng := g2);
        var w2 := Publish(w1, BlockEffect(c, Teleported(target)));
        (SetPosition(w2, c, target), false)
  }

  /** `Mine.onLand`: after an ignored prompt the hit is announced and the
      piece goes back to the hangar; the prompt throws at the end of
      input, and naming the current player throws when there is none. */
  function LandOnMine(w: World, c: ChessmanRef): (r: (World, bool))
    requires Valid(w, c)
    ensures Preserves(w, r.0)
    decreases Budget(w), 45, 0
  {
    match IgnoredChoice(w.answers, BlockPromptOptions)
    case None => (w.(answers := []), true)
    case Some(rest) =>
      var w0 := w.(answers := rest);
      if w0.state.currentPlayer.None? then (w0, true)
      else (SetPosition(Publish(w0, BlockEffect(c, MineHit)), c, Hangar), false)
  }

  /** `SpeedUp.onLand` (factor 2) and `SlowDown.onLand` (factor -2): the
      effect is announced and the piece moves by factor times the current
      dice value. */
  function LandOnBoost(w: World, c: ChessmanRef, factor: int): (r: (World, bool))
    requires Valid(w, c)
    ensures Preserves(w, r.0)
    decreases Budget(w), 45, 0
  {
    if w.state.currentPlayer.None? then (w, true)
    else
      var w1 := Publish(w, BlockEffect(c, if factor > 0 then SpeedUpFired else SlowDownFired));
      (MoveChessman(w1, c, w1.state.currentDiceValue * factor).0, false)
  }
}
