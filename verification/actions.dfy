/** The options a player is offered after a roll: one move option per piece
    on the board short of its destination, then, on a roll that allows it,
    one take-off option per piece still in the hangar. */
module Actions {
  import opened Entities
  import opened DefaultRules

  /** An option names the piece by its index in the player's list; a move
      option also records where the piece stood when it was offered. */
  datatype Action = MoveAction(index: nat, position: int) | TakeOffAction(index: nat)

  /** A piece may be moved: it is on the board, before its destination,
      and the move strategy approves the roll. */
  predicate Movable(c: Chessman, dice: int, endPosition: int)
  {
    c.position >= 0 && c.position < endPosition && CanMove(c.position, endPosition, dice)
  }

  /** Move options for the pieces `i ..`, in list order. */
  function MoveOptions(cs: seq<Chessman>, dice: int, endPosition: int, i: nat): seq<Action>
    decreases |cs| - i
  {
    if i >= |cs| then []
    else
      (if Movable(cs[i], dice, endPosition) then [MoveAction(i, cs[i].position)] else [])
      + MoveOptions(cs, dice, endPosition, i + 1)
  }

  /** Take-off options for the pieces `i ..` still in the hangar. */
  function TakeOffOptions(cs: seq<Chessman>, i: nat): seq<Action>
    decreases |cs| - i
  {
    if i >= |cs| then []
    else (if cs[i].position == Hangar then [TakeOffAction(i)] else []) + TakeOffOptions(cs, i + 1)
  }

  /** `analyzeActions`: all move options, then the take-off options when
      the roll allows a take-off. */
  function AnalyzeActions(p: Player, dice: int, endPosition: int): seq<Action>
  {
    MoveOptions(p.chessmen, dice, endPosition, 0)
    + (if CanTakeOff(dice) then TakeOffOptions(p.chessmen, 0) else [])
  }

  /** Every entry is a move option for a movable piece from `i` on,
      carrying that piece's position. */
  predicate OnlyMovable(r: seq<Action>, cs: seq<Chessman>, dice: int, endPosition: int, i: nat)
  {
    forall k :: 0 <= k < |r| ==>
      && r[k].MoveAction? && i <= r[k].index < |cs|
      && r[k].position == cs[r[k].index].position
      && Movable(cs[r[k].index], dice, endPosition)
  }

  /** Every entry is a take-off option for a hangar piece from `i` on. */
  predicate OnlyHangar(r: seq<Action>, cs: seq<Chessman>, i: nat)
  {
    forall k :: 0 <= k < |r| ==>
      r[k].TakeOffAction? && i <= r[k].index < |cs| && cs[r[k].index].position == Hangar
  }

  /** Piece indices strictly increase along `r`. */
  predicate IndexOrdered(r: seq<Action>)
  {
    forall k, l :: 0 <= k < l < |r| ==> r[k].index < r[l].index
  }

  /** The move options from `i` on: one move option per movable piece,
      carrying that piece's position. */
  lemma {:induction false} MoveOptionsSound(cs: seq<Chessman>, dice: int, endPosition: int, i: nat)
    ensures OnlyMovable(MoveOptions(cs, dice, endPosition, i), cs, dice, endPosition, i)
    decreases |cs| - i
  {
    if i < |cs| {
      MoveOptionsSound(cs, dice, endPosition, i + 1);
      var head := if Movable(cs[i], dice, endPosition) then [MoveAction(i, cs[i].position)] else [];
      var rest := MoveOptions(cs, dice, endPosition, i + 1);
      assert forall k :: |head| <= k < |head + rest| ==> (head + rest)[k] == rest[k - |head|];
    }
  }

  /** Every movable piece from `i` on is offered. */
  lemma {:induction false} MoveOptionsComplete(cs: seq<Chessman>, dice: int, endPosition: int, i: nat)
    ensures forall j :: i <= j < |cs| && Movable(cs[j], dice, endPosition) ==>
      MoveAction(j, cs[j].position) in MoveOptions(cs, dice, endPosition, i)
    decreases |cs| - i
  {
    if i < |cs| {
      MoveOptionsComplete(cs, dice, endPosition, i + 1);
    }
  }

  /** The move options come in increasing piece order. */
  lemma {:induction false} MoveOptionsOrdered(cs: seq<Chessman>, dice: int, endPosition: int, i: nat)
    ensures IndexOrdered(MoveOptions(cs, dice, endPosition, i))
    decreases |cs| - i
  {
    if i < |cs| {
      MoveOptionsSound(cs, dice, endPosition, i + 1);
      MoveOptionsOrdered(cs, dice, endPosition, i + 1);
      var head := if Movable(cs[i], dice, endPosition) then [MoveAction(i, cs[i].position)] else [];
      var rest := MoveOptions(cs, dice, endPosition, i + 1);
      assert forall k :: |head| <= k < |head + rest| ==> (head + rest)[k] == rest[k - |head|];
    }
  }

  /** The take-off options from `i` on name hangar pieces only. */
  lemma {:induction false} TakeOffOptionsSound(cs: seq<Chessman>, i: nat)
    ensures OnlyHangar(TakeOffOptions(cs, i), cs, i)
    decreases |cs| - i
  {
    if i < |cs| {
      TakeOffOptionsSound(cs, i + 1);
      var head := if cs[i].position == Hangar then [TakeOffAction(i)] else [];
      var rest := TakeOffOptions(cs, i + 1);
      assert forall k :: |head| <= k < |head + rest| ==> (head + rest)[k] == rest[k - |head|];
    }
  }

  /** Every hangar piece from `i` on is offered a take-off. */
  lemma {:induction false} TakeOffOptionsComplete(cs: seq<Chessman>, i: nat)
    ensures forall j :: i <= j < |cs| && cs[j].position == Hangar ==> TakeOffAction(j) in TakeOffOptions(cs, i)
    decreases |cs| - i
  {
    if i < |cs| {
      TakeOffOptionsComplete(cs, i + 1);
    }
  }

  /** The take-off options come in increasing piece order. */
  lemma {:induction false} TakeOffOptionsOrdered(cs: seq<Chessman>, i: nat)
    ensures IndexOrdered(TakeOffOptions(cs, i))
    decreases |cs| - i
  {
    if i < |cs| {
      TakeOffOptionsSound(cs, i + 1);
      TakeOffOptionsOrdered(cs, i + 1);
      var head := if cs[i].position == Hangar then [TakeOffAction(i)] else [];
      var rest := TakeOffOptions(cs, i + 1);
      assert forall k :: |head| <= k < |head + rest| ==> (head + rest)[k] == rest[k - |head|];
    }
  }

  /** A move option for piece `j` is offered exactly when the piece is on
      the path short of its end, whatever the roll. */
  lemma AnalyzeMoves(p: Player, dice: int, endPosition: int)
    ensures forall j :: 0 <= j < |p.chessmen| ==>
      var m := MoveAction(j, p.chessmen[j].position);
      m in AnalyzeActions(p, dice, endPosition) <==> 0 <= p.chessmen[j].position < endPosition
  {
    var cs := p.chessmen;
    var moves := MoveOptions(cs, dice, endPosition, 0);
    var takeoffs := if CanTakeOff(dice) then TakeOffOptions(cs, 0) else [];
    var r := AnalyzeActions(p, dice, endPosition);
    assert r == moves + takeoffs;
    MoveOptionsSound(cs, dice, endPosition, 0);
    MoveOptionsComplete(cs, dice, endPosition, 0);
    TakeOffOptionsSound(cs, 0);
    forall j | 0 <= j < |cs|
      ensures MoveAction(j, cs[j].position) in r <==> 0 <= cs[j].position < endPosition
    {
      CanMoveSpec(cs[j].position, endPosition, dice, dice);
      var m := MoveAction(j, cs[j].position);
      assert m !in takeoffs;
      if m in moves {
        var k :| 0 <= k < |moves| && moves[k] == m;
      }
    }
  }

  /** Every move option carries its piece's current position. */
  lemma AnalyzeMovePositions(p: Player, dice: int, endPosition: int)
    ensures var r := AnalyzeActions(p, dice, endPosition);
      forall k :: 0 <= k < |r| && r[k].MoveAction? ==>
        r[k].index < |p.chessmen| && r[k].position == p.chessmen[r[k].index].position
  {
    var cs := p.chessmen;
    var moves := MoveOptions(cs, dice, endPosition, 0);
    var takeoffs := if CanTakeOff(dice) then TakeOffOptions(cs, 0) else [];
    var r := AnalyzeActions(p, dice, endPosition);
    assert r == moves + takeoffs;
    MoveOptionsSound(cs, dice, endPosition, 0);
    TakeOffOptionsSound(cs, 0);
    forall k | 0 <= k < |r| && r[k].MoveAction?
      ensures r[k].index < |cs| && r[k].position == cs[r[k].index].position
    {
      if k < |moves| {
        assert r[k] == moves[k];
      }
    }
  }

  /** A take-off option for piece `j` is offered exactly when the roll is
      a 6 and the piece is in the hangar; every option names a real
      piece; and no move option comes after a take-off option. */
  lemma AnalyzeTakeOffs(p: Player, dice: int, endPosition: int)
    ensures var r := AnalyzeActions(p, dice, endPosition);
      && (forall j :: 0 <= j < |p.chessmen| ==>
            (TakeOffAction(j) in r <==> dice == 6 && p.chessmen[j].position == Hangar))
      && (forall k :: 0 <= k < |r| ==> r[k].index < |p.chessmen|)
      && (forall k, l :: 0 <= k < l < |r| && r[k].TakeOffAction? ==> r[l].TakeOffAction?)
  {
    var cs := p.chessmen;
    var moves := MoveOptions(cs, dice, endPosition, 0);
    var takeoffs := if CanTakeOff(dice) then TakeOffOptions(cs, 0) else [];
    var r := AnalyzeActions(p, dice, endPosition);
    MoveOptionsSound(cs, dice, endPosition, 0);
    TakeOffOptionsSound(cs, 0);
    TakeOffOptionsComplete(cs, 0);
    assert forall k :: 0 <= k < |moves| ==> r[k] == moves[k];
    assert forall k :: |moves| <= k < |r| ==> r[k] == takeoffs[k - |moves|];
    forall j | 0 <= j < |cs|
      ensures TakeOffAction(j) in r <==> dice == 6 && cs[j].position == Hangar
    {
      if TakeOffAction(j) in r {
        var k :| 0 <= k < |r| && r[k] == TakeOffAction(j);
        assert k >= |moves|;
      }
    }
  }

  /** With no piece on the board short of the end, and either a roll that
      is not a 6 or no piece in the hangar, nothing is offered. */
  lemma NoOptions(p: Player, dice: int, endPosition: int)
    requires forall j :: 0 <= j < |p.chessmen| ==> !(0 <= p.chessmen[j].position < endPosition)
    requires dice != 6 || forall j :: 0 <= j < |p.chessmen| ==> p.chessmen[j].position != Hangar
    ensures AnalyzeActions(p, dice, endPosition) == []
  {
    var r := AnalyzeActions(p, dice, endPosition);
    if |r| > 0 {
      AnalyzeMoves(p, dice, endPosition);
      AnalyzeMovePositions(p, dice, endPosition);
      AnalyzeTakeOffs(p, dice, endPosition);
      match r[0]
      case MoveAction(j, pos) =>
        assert false;
      case TakeOffAction(j) =>
        assert false;
    }
  }
}
