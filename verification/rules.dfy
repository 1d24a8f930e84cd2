/** The default rule set: take-off and extra-turn on a six, move only pieces
    on the path and short of the end, bounce back by the overshoot, and the
    first player marked as winner wins. */
module DefaultRules {
  import opened Base
  import opened Entities

  /** Nested cell effects stop at this depth. */
  const MaxBlockEffectDepth: nat := 5

  /** The one dice value that lets a piece leave the hangar. */
  const TakeOffValue := 6

  predicate CanTakeOff(dice: int)
  {
    dice == TakeOffValue
  }

  predicate ShouldGrantExtraTurn(dice: int)
  {
    dice == 6
  }

  /** Taking off and earning an extra turn go together: both need a six,
      and of the six faces of a die only the last one gives either. */
  lemma SixRule(dice: int)
    requires 1 <= dice <= 6
    ensures CanTakeOff(dice) <==> ShouldGrantExtraTurn(dice)
    ensures CanTakeOff(dice) <==> dice == 6
  {
  }

  /** `canMove` of the default move strategy; the step count is unused. */
  predicate CanMove(position: int, endPosition: int, steps: int)
  {
    if position < 0 then false
    else if position >= endPosition then false
    else true
  }

  /** A piece may move exactly when it is on the path and short of its end,
      whatever the roll. */
  lemma CanMoveSpec(position: int, endPosition: int, steps: int, other: int)
    ensures CanMove(position, endPosition, steps) <==> 0 <= position < endPosition
    ensures CanMove(position, endPosition, steps) == CanMove(position, endPosition, other)
  {
  }

  /** `canCapture`: both pieces exist and belong to different players. */
  predicate CanCapture(attacker: Option<Chessman>, defender: Option<Chessman>)
  {
    attacker.Some? && defender.Some? && attacker.value.owner != defender.value.owner
  }

  /** No piece can capture a piece of its own side, nor a missing one. */
  lemma CaptureSpec(a: Option<Chessman>, d: Option<Chessman>)
    ensures CanCapture(a, d) ==> a.Some? && d.Some?
    ensures a.Some? && d.Some? ==> (CanCapture(a, d) <==> a.value.owner != d.value.owner)
    ensures CanCapture(a, d) <==> CanCapture(d, a)
  {
  }

  /** The value `handleOverEnd` returns for `deltaSteps` past the end: that
      many steps back. */
  function OverEndDelta(deltaSteps: int): int
  {
    -deltaSteps
  }

  /** A piece aimed `over` cells past its end lands `over` cells before it:
      the end lies halfway between the aimed cell and the landing cell. */
  lemma BounceSpec(endPosition: int, target: int)
    requires target > endPosition
    ensures var landing := endPosition + OverEndDelta(target - endPosition);
      landing < endPosition && endPosition - landing == target - endPosition
  {
  }

  /** `isGameOver`: some player is marked as winner. */
  predicate IsGameOver(ps: seq<Player>)
    decreases |ps|
  {
    if |ps| == 0 then false
    else if ps[0].isWinner then true
    else IsGameOver(ps[1..])
  }

  /** `getWinner`: the index of the first player marked as winner. */
  function GetWinner(ps: seq<Player>): Option<nat>
    decreases |ps|
  {
    if |ps| == 0 then None
    else if ps[0].isWinner then Some(0)
    else match GetWinner(ps[1..])
      case None => None
      case Some(i) => Some(i + 1)
  }

  /** The game is over exactly when some player is a winner. */
  lemma {:induction false} IsGameOverSpec(ps: seq<Player>)
    ensures IsGameOver(ps) <==> exists i :: 0 <= i < |ps| && ps[i].isWinner
    decreases |ps|
  {
    if |ps| > 0 {
      IsGameOverSpec(ps[1..]);
      if !ps[0].isWinner && exists i :: 0 <= i < |ps| && ps[i].isWinner {
        var i :| 0 <= i < |ps| && ps[i].isWinner;
        assert ps[1..][i - 1].isWinner;
      }
    }
  }

  /** The winner reported is the first player marked as winner, and there
      is one exactly when the game is over. */
  lemma {:induction false} GetWinnerSpec(ps: seq<Player>)
    ensures GetWinner(ps).Some? ==>
      GetWinner(ps).value < |ps| && ps[GetWinner(ps).value].isWinner
      && forall j :: 0 <= j < GetWinner(ps).value ==> !ps[j].isWinner
    ensures GetWinner(ps).None? ==> forall j :: 0 <= j < |ps| ==> !ps[j].isWinner
    ensures GetWinner(ps).Some? <==> IsGameOver(ps)
    decreases |ps|
  {
    if |ps| > 0 {
      GetWinnerSpec(ps[1..]);
      if !ps[0].isWinner {
        match GetWinner(ps[1..])
        case None =>
          assert forall j :: 0 <= j < |ps| ==> !ps[j].isWinner by {
            forall j | 0 <= j < |ps| ensures !ps[j].isWinner {
              if j > 0 { assert ps[j] == ps[1..][j - 1]; }
            }
          }
        case Some(i) =>
          assert ps[i + 1] == ps[1..][i];
          assert forall j :: 0 <= j < i + 1 ==> !ps[j].isWinner by {
            forall j | 0 <= j < i + 1 ensures !ps[j].isWinner {
              if j > 0 { assert ps[j] == ps[1..][j - 1]; }
            }
          }
      }
    }
  }
}
