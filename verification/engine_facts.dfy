/** What the publish/dispatch chain does, step by step: which events only
    get recorded, the exact shape of forward, backward and overshooting
    moves, the events `setPosition` publishes, and the depth cap. */
module EngineFacts {
  import opened Base
  import opened Entities
  import opened Events
  import opened EventBus
  import opened DefaultRules
  import opened Engine

  /** Events no handler reacts to, whoever subscribed to them. */
  predicate Passive(e: Event)
  {
    !(|| e.ChessmanMoved? || e.ChessmanTakeOff? || e.ChessmanOverEnd?
      || e.DiceRolled? || e.EndTurn? || e.GrantNewTurn?)
  }

  lemma {:induction false} DeliverPassive(w: World, e: Event, ls: seq<Listener>)
    requires Passive(e)
    ensures Deliver(w, e, ls) == w
    decreases |ls|
  {
    if |ls| > 0 {
      assert Handle(w, ls[0], e) == w;
      DeliverPassive(w, e, ls[1..]);
    }
  }

  /** Publishing a passive event records it and changes nothing else: the
      listeners it reaches, if any, all return without effect. */
  lemma PublishPassive(w: World, e: Event)
    requires Passive(e)
    ensures Publish(w, e) == w.(trace := w.trace + [e])
  {
    DeliverPassive(w.(trace := w.trace + [e]), e, ListenersFor(w.bus, TypeOf(e)));
  }

  lemma {:induction false} DeliverGrant(w: World, c: ChessmanRef, ls: seq<Listener>)
    ensures Deliver(w, GrantNewTurn(c), ls) == w.(grantFlag := w.grantFlag || EngineOnGrantNewTurn in ls)
    decreases |ls|
  {
    if |ls| > 0 {
      var w1 := Handle(w, ls[0], GrantNewTurn(c));
      assert w1 == w.(grantFlag := w.grantFlag || ls[0] == EngineOnGrantNewTurn);
      DeliverGrant(w1, c, ls[1..]);
      assert EngineOnGrantNewTurn in ls <==> ls[0] == EngineOnGrantNewTurn || EngineOnGrantNewTurn in ls[1..];
    }
  }

  /** `onMapGrantExtraTurn`: a cell's extra-turn request is recorded and
      raises the engine's pending flag when the engine is subscribed;
      nothing else changes. */
  lemma PublishGrant(w: World, c: ChessmanRef)
    ensures Publish(w, GrantNewTurn(c)) ==
      w.(trace := w.trace + [GrantNewTurn(c)],
         grantFlag := w.grantFlag || EngineOnGrantNewTurn in ListenersFor(w.bus, TGrantNewTurn))
  {
    DeliverGrant(w.(trace := w.trace + [GrantNewTurn(c)]), c, ListenersFor(w.bus, TypeOf(GrantNewTurn(c))));
  }

  /** Where a piece stands after `i` single steps from `s`: one cell
      further each step going forward; one cell back each step going
      backward, but never below cell 0. */
  function Stepped(s: int, i: nat, forward: bool): int
  {
    if forward then s + i
    else if i == 0 then s
    else if s - i > 0 then s - i else 0
  }

  /** The animation events of `k` silent steps starting at `s`. */
  function Easings(c: ChessmanRef, s: int, k: nat, forward: bool): seq<Event>
    decreases k
  {
    if k == 0 then []
    else [ChessmanMoveEasing(c, s, Stepped(s, 1, forward))] + Easings(c, Stepped(s, 1, forward), k - 1, forward)
  }

  /** One animation event per silent step, the `i`-th going from the cell
      reached after `i` steps to the next one. */
  lemma {:induction false} EasingsAt(c: ChessmanRef, s: int, k: nat, forward: bool)
    ensures |Easings(c, s, k, forward)| == k
    ensures forall i :: 0 <= i < k ==>
      Easings(c, s, k, forward)[i] == ChessmanMoveEasing(c, Stepped(s, i, forward), Stepped(s, i + 1, forward))
    decreases k
  {
    if k > 0 {
      var s1 := Stepped(s, 1, forward);
      EasingsAt(c, s1, k - 1, forward);
      var r := Easings(c, s, k, forward);
      assert r == [ChessmanMoveEasing(c, s, s1)] + Easings(c, s1, k - 1, forward);
      forall i | 0 <= i < k
        ensures r[i] == ChessmanMoveEasing(c, Stepped(s, i, forward), Stepped(s, i + 1, forward))
      {
        if i > 0 {
          assert r[i] == Easings(c, s1, k - 1, forward)[i - 1];
          assert Stepped(s1, i - 1, forward) == Stepped(s, i, forward);
          assert Stepped(s1, i, forward) == Stepped(s, i + 1, forward);
        }
      }
    }
  }

  /** One silent step: the piece written one cell on (or back), and the
      animation event for it; nothing else changes. */
  function Step(w: World, c: ChessmanRef, forward: bool): (r: World)
    requires Valid(w, c)
    ensures Valid(r, c) && Pos(r, c) == Stepped(Pos(w, c), 1, forward)
    ensures EndOf(r, c) == EndOf(w, c)
  {
    var next := Stepped(Pos(w, c), 1, forward);
    WithPos(w, c, next).(trace := w.trace + [ChessmanMoveEasing(c, Pos(w, c), next)])
  }

  /** `k` silent steps in a row. */
  function Walk(w: World, c: ChessmanRef, k: nat, forward: bool): (r: World)
    requires Valid(w, c)
    ensures Valid(r, c) && Pos(r, c) == Stepped(Pos(w, c), k, forward)
    ensures EndOf(r, c) == EndOf(w, c)
    decreases k
  {
    if k == 0 then w
    else
      var r := Walk(Step(w, c, forward), c, k - 1, forward);
      assert Stepped(Stepped(Pos(w, c), 1, forward), k - 1, forward) == Stepped(Pos(w, c), k, forward);
      r
  }

  /** Writing a piece twice keeps only the second write, and the trace
      plays no part in the write. */
  lemma WithPosTwice(w: World, c: ChessmanRef, a: int, b: int, t: seq<Event>)
    requires Valid(w, c)
    ensures WithPos(WithPos(w, c, a).(trace := t), c, b) == WithPos(w, c, b).(trace := t)
  {
    var pl := w.players[c.player];
    var piece := pl.chessmen[c.index];
    var pa := pl.(chessmen := pl.chessmen[c.index := piece.(position := a)]);
    var pb := pl.(chessmen := pl.chessmen[c.index := piece.(position := b)]);
    assert pa.chessmen[c.index := pa.chessmen[c.index].(position := b)] == pb.chessmen;
    assert w.players[c.player := pa][c.player := pb] == w.players[c.player := pb];
  }

  /** `k` silent steps leave the world as one write of the piece at the
      cell they reach, plus one animation event per step, in order;
      nothing else of the world changes. */
  lemma {:induction false} WalkClosed(w: World, c: ChessmanRef, k: nat, forward: bool)
    requires Valid(w, c)
    ensures Walk(w, c, k, forward) ==
      WithPos(w, c, Stepped(Pos(w, c), k, forward)).(trace := w.trace + Easings(c, Pos(w, c), k, forward))
    decreases k
  {
    var s := Pos(w, c);
    if k == 0 {
      var pl := w.players[c.player];
      assert pl.chessmen[c.index := pl.chessmen[c.index].(position := s)] == pl.chessmen;
      assert w.players[c.player := pl] == w.players;
      assert w.trace + [] == w.trace;
    } else {
      var w1 := Step(w, c, forward);
      var next := Stepped(s, 1, forward);
      WalkClosed(w1, c, k - 1, forward);
      assert Stepped(next, k - 1, forward) == Stepped(s, k, forward);
      WithPosTwice(w, c, next, Stepped(s, k, forward), w1.trace);
      assert w1.trace + Easings(c, next, k - 1, forward) == w.trace + Easings(c, s, k, forward);
    }
  }

  /** The rest of a forward move from step `i` on, the piece standing
      where the world says. */
  function ForwardRest(w: World, c: ChessmanRef, steps: nat, i: nat, end: int): (World, bool)
    requires Valid(w, c) && i < steps
  {
    ForwardSteps(w, c, steps, i, Pos(w, c), end)
  }

  /** The rest of a backward move from step `i` on. */
  function BackwardRest(w: World, c: ChessmanRef, steps: nat, i: nat): World
    requires Valid(w, c) && i < steps
  {
    BackwardSteps(w, c, steps, i, Pos(w, c))
  }

  /** A forward step past `end` publishes the overshoot, aimed where the
      whole move would have ended, and stops. */
  lemma ForwardOneOver(w: World, c: ChessmanRef, steps: nat, i: nat, end: int)
    requires Valid(w, c) && i < steps && Pos(w, c) + 1 > end
    ensures ForwardRest(w, c, steps, i, end) ==
      (Publish(w, ChessmanOverEnd(c, Pos(w, c) + (steps - i), end, Pos(w, c) + (steps - i) - end)), false)
  {
  }

  /** A forward step before the last one, within `end`, is a silent
      step. */
  lemma ForwardOneSilent(w: World, c: ChessmanRef, steps: nat, i: nat, end: int)
    requires Valid(w, c) && i < steps - 1 && Pos(w, c) + 1 <= end
    ensures ForwardRest(w, c, steps, i, end) == ForwardRest(Step(w, c, true), c, steps, i + 1, end)
  {
    PublishPassive(WithPos(w, c, Pos(w, c) + 1), ChessmanMoveEasing(c, Pos(w, c), Pos(w, c) + 1));
  }

  /** The last forward step, within `end`, goes through `setPosition`. */
  lemma ForwardOneLast(w: World, c: ChessmanRef, steps: nat, i: nat, end: int)
    requires Valid(w, c) && i == steps - 1 && Pos(w, c) + 1 <= end
    ensures ForwardRest(w, c, steps, i, end) == (SetPosition(w, c, Pos(w, c) + 1), true)
  {
    assert ForwardRest(w, c, steps, i, end) == ForwardSteps(w, c, steps, i, Pos(w, c), end);
  }

  /** A backward step before the last one is a silent step. */
  lemma BackwardOneSilent(w: World, c: ChessmanRef, steps: nat, i: nat)
    requires Valid(w, c) && i < steps - 1
    ensures BackwardRest(w, c, steps, i) == BackwardRest(Step(w, c, false), c, steps, i + 1)
  {
    var next := Stepped(Pos(w, c), 1, false);
    PublishPassive(WithPos(w, c, next), ChessmanMoveEasing(c, Pos(w, c), next));
  }

  /** The last backward step goes through `setPosition`. */
  lemma BackwardOneLast(w: World, c: ChessmanRef, steps: nat, i: nat)
    requires Valid(w, c) && i == steps - 1
    ensures BackwardRest(w, c, steps, i) == SetPosition(w, c, Stepped(Pos(w, c), 1, false))
  {
  }

  /** A walk of `k > 0` steps is one step and then `k - 1` more. */
  lemma WalkFirst(w: World, c: ChessmanRef, k: nat, forward: bool)
    requires Valid(w, c) && k > 0
    ensures Walk(w, c, k, forward) == Walk(Step(w, c, forward), c, k - 1, forward)
  {
  }

  /** `k` forward steps that stay within `end` and come before the last
      step are `k` silent steps: the rest of the move is the same loop
      from step `j = i + k` on the walked world. */
  lemma {:induction false} ForwardRun(w: World, c: ChessmanRef, steps: nat, i: nat, j: nat, k: nat, end: int)
    requires Valid(w, c) && j == i + k && j < steps && Pos(w, c) + k <= end
    ensures ForwardRest(w, c, steps, i, end) == ForwardRest(Walk(w, c, k, true), c, steps, j, end)
    decreases k
  {
    if k > 0 {
      ForwardOneSilent(w, c, steps, i, end);
      ForwardRun(Step(w, c, true), c, steps, i + 1, j, k - 1, end);
      WalkFirst(w, c, k, true);
    }
  }

  /** `k` backward steps before the last are `k` silent steps. */
  lemma {:induction false} BackwardRun(w: World, c: ChessmanRef, steps: nat, i: nat, j: nat, k: nat)
    requires Valid(w, c) && j == i + k && j < steps
    ensures BackwardRest(w, c, steps, i) == BackwardRest(Walk(w, c, k, false), c, steps, j)
    decreases k
  {
    if k > 0 {
      BackwardOneSilent(w, c, steps, i);
      BackwardRun(Step(w, c, false), c, steps, i + 1, j, k - 1);
      WalkFirst(w, c, k, false);
    }
  }

  /** The first `n - 1` steps of a move by `n > 0` within reach of the
      end are silent steps. */
  lemma ForwardPrefix(w: World, c: ChessmanRef, steps: int)
    requires Valid(w, c) && steps > 0 && Pos(w, c) + steps <= EndOf(w, c)
    ensures MoveChessman(w, c, steps) == ForwardRest(Walk(w, c, steps - 1, true), c, steps, steps - 1, EndOf(w, c))
  {
    assert MoveChessman(w, c, steps) == ForwardRest(w, c, steps, 0, EndOf(w, c));
    ForwardRun(w, c, steps, 0, steps - 1, steps - 1, EndOf(w, c));
  }

  /** `moveChessman` by `n > 0` within reach of the owner's end: `n - 1`
      silent steps, each recording its animation event, then
      `setPosition` to `start + n`; the answer is true. */
  lemma MoveForwardWithin(w: World, c: ChessmanRef, steps: int)
    requires Valid(w, c) && steps > 0 && Pos(w, c) + steps <= EndOf(w, c)
    ensures MoveChessman(w, c, steps) == (SetPosition(Walk(w, c, steps - 1, true), c, Pos(w, c) + steps), true)
  {
    ForwardPrefix(w, c, steps);
    ForwardOneLast(Walk(w, c, steps - 1, true), c, steps, steps - 1, EndOf(w, c));
  }

  /** `moveChessman` by `n > 0` past the owner's end: silent steps up to
      the end (none when the piece already stands there), so never a
      write past the end, then one `ChessmanOverEnd` aimed at
      `start + n`, `start + n - end` cells over; the answer is false. */
  lemma MoveForwardOver(w: World, c: ChessmanRef, steps: int)
    requires Valid(w, c) && steps > 0 && Pos(w, c) + steps > EndOf(w, c)
    ensures var end := EndOf(w, c);
      var k := if Pos(w, c) < end then end - Pos(w, c) else 0;
      && Stepped(Pos(w, c), k, true) == (if Pos(w, c) < end then end else Pos(w, c))
      && MoveChessman(w, c, steps) ==
        (Publish(Walk(w, c, k, true), ChessmanOverEnd(c, Pos(w, c) + steps, end, Pos(w, c) + steps - end)), false)
  {
    var end := EndOf(w, c);
    var k := if Pos(w, c) < end then end - Pos(w, c) else 0;
    assert MoveChessman(w, c, steps) == ForwardRest(w, c, steps, 0, end);
    if k > 0 {
      ForwardRun(w, c, steps, 0, k, k, end);
    }
    var last := Walk(w, c, k, true);
    ForwardOneOver(last, c, steps, k, end);
    assert Pos(last, c) + (steps - k) == Pos(w, c) + steps;
  }

  /** `moveChessman` by `-n < 0`: `n - 1` silent steps, each one cell back
      but never below cell 0, then `setPosition` to `start - n`, or to 0
      when that is negative; the answer is true. */
  lemma MoveBackward(w: World, c: ChessmanRef, steps: int)
    requires Valid(w, c) && steps < 0
    ensures Stepped(Pos(w, c), -steps, false) == (if Pos(w, c) + steps > 0 then Pos(w, c) + steps else 0)
    ensures MoveChessman(w, c, steps) ==
      (SetPosition(Walk(w, c, -steps - 1, false), c, Stepped(Pos(w, c), -steps, false)), true)
  {
    BackwardRun(w, c, -steps, 0, -steps - 1, -steps - 1);
    var last := Walk(w, c, -steps - 1, false);
    BackwardOneLast(last, c, -steps, -steps - 1);
    assert Stepped(Pos(last, c), 1, false) == Stepped(Pos(w, c), -steps, false);
  }

  /** A reference to no piece, or a move of no steps, changes nothing and
      answers false. */
  lemma MoveNothing(w: World, c: ChessmanRef, steps: int)
    requires !Valid(w, c) || steps == 0
    ensures MoveChessman(w, c, steps) == (w, false)
  {
  }

  /** `setPosition`: the position is stored; a move animation from the old
      cell is recorded exactly when the piece was on the board and the cell
      changes; then `ChessmanMoved` for this piece and this cell is
      published, its listeners seeing the stored position. A reference to
      no piece changes nothing. */
  lemma SetPositionEvents(w: World, c: ChessmanRef, p: int)
    ensures !Valid(w, c) ==> SetPosition(w, c, p) == w
    ensures Valid(w, c) ==>
      var before := Pos(w, c);
      var animation := if before != p && before != Hangar then [ChessmanMoveEasing(c, before, p)] else [];
      var stored := WithPos(w, c, p).(trace := w.trace + animation);
      && SetPosition(w, c, p) == Publish(stored, ChessmanMoved(c, p))
      && w.trace + animation + [ChessmanMoved(c, p)] <= SetPosition(w, c, p).trace
      && Pos(stored, c) == p
  {
    if Valid(w, c) {
      var before := Pos(w, c);
      var w1 := WithPos(w, c, p);
      if before != p && before != Hangar {
        PublishPassive(w1, ChessmanMoveEasing(c, before, p));
      } else {
        assert w1.(trace := w.trace + []) == w1;
      }
    }
  }

  /** A `setPosition` of a piece records `ChessmanMoved` for that piece
      and that cell among the events it adds. */
  lemma SetPositionReports(w: World, c: ChessmanRef, p: int)
    requires Valid(w, c)
    ensures var t := SetPosition(w, c, p).trace;
      exists k :: |w.trace| <= k < |t| && t[k] == ChessmanMoved(c, p)
  {
    SetPositionEvents(w, c, p);
    var before := Pos(w, c);
    var animation := if before != p && before != Hangar then [ChessmanMoveEasing(c, before, p)] else [];
    var t := SetPosition(w, c, p).trace;
    assert t[|w.trace| + |animation|] == (w.trace + animation + [ChessmanMoved(c, p)])[|w.trace| + |animation|];
  }

  /** `Board.onChessmanMoved` at the maximum depth: a single warning effect
      is recorded and no cell effect runs; below it the depth is back to
      where it was whatever the effect did. */
  lemma DispatchAtLimit(w: World, c: ChessmanRef)
    requires Valid(w, c) && w.depth >= MaxBlockEffectDepth
    ensures Dispatch(w, c) == (w.(trace := w.trace + [BlockEffect(c, DepthLimitReached)]), false)
  {
    PublishPassive(w, BlockEffect(c, DepthLimitReached));
  }
}
