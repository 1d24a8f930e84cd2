/** Players and their pieces. A piece records its owner by the owner's
    player id; the back-reference of the object graph becomes that id. */
module Entities {

  /** Position of a piece that has not taken off yet (and of one a mine
      sent home). */
  const Hangar := -1

  datatype Chessman = Chessman(id: int, owner: int, position: int)

  datatype Player = Player(
    name: string,
    playerId: int,
    isWinner: bool,
    chessmen: seq<Chessman>,
    active: bool)

  /** A fresh piece waits in the hangar. */
  function NewChessman(id: int, owner: int): (c: Chessman)
    ensures c.id == id && c.owner == owner && c.position == Hangar
  {
    Chessman(id, owner, Hangar)
  }

  /** `reset()` sends a piece back to the hangar, keeping who it is. */
  function ResetChessman(c: Chessman): (r: Chessman)
    ensures r.id == c.id && r.owner == c.owner && r.position == Hangar
  {
    c.(position := Hangar)
  }

  /** The pieces `0 .. count-1` of player `owner`, all in the hangar. */
  function Fleet(owner: int, count: nat): (cs: seq<Chessman>)
    ensures |cs| == count
    ensures forall i :: 0 <= i < count ==> cs[i] == NewChessman(i, owner)
  {
    seq(count, i requires 0 <= i < count => NewChessman(i, owner))
  }

  /** A new player is active, not a winner, and owns `count` fresh pieces
      numbered from 0. */
  function NewPlayer(name: string, id: int, count: nat): (p: Player)
    ensures p.name == name && p.playerId == id
    ensures p.active && !p.isWinner
    ensures |p.chessmen| == count
    ensures forall i :: 0 <= i < count ==>
      p.chessmen[i].id == i && p.chessmen[i].owner == id && p.chessmen[i].position == Hangar
  {
    Player(name, id, false, Fleet(id, count), true)
  }

  /** `setWinner()` marks the player and reports `true`; nothing else of the
      player changes. */
  function SetWinner(p: Player): (r: (Player, bool))
    ensures r.0.isWinner && r.1
    ensures r.0 == p.(isWinner := true)
  {
    (p.(isWinner := true), true)
  }

  /** `reset()`: the winner flag is cleared, the player is active again, and
      every piece goes back to the hangar. */
  function ResetPlayer(p: Player): (r: Player)
    ensures r.name == p.name && r.playerId == p.playerId
    ensures !r.isWinner && r.active
    ensures |r.chessmen| == |p.chessmen|
    ensures forall i :: 0 <= i < |p.chessmen| ==> r.chessmen[i] == ResetChessman(p.chessmen[i])
  {
    Player(p.name, p.playerId, false,
           seq(|p.chessmen|, i requires 0 <= i < |p.chessmen| => ResetChessman(p.chessmen[i])),
           true)
  }

  /** Resetting a fresh player gives back the same player. */
  lemma ResetNewPlayer(name: string, id: int, count: nat)
    ensures ResetPlayer(NewPlayer(name, id, count)) == NewPlayer(name, id, count)
  {
    var p := NewPlayer(name, id, count);
    assert ResetPlayer(p).chessmen == p.chessmen;
  }

  /** Resetting twice is the same as resetting once. */
  lemma ResetPlayerIdempotent(p: Player)
    ensures ResetPlayer(ResetPlayer(p)) == ResetPlayer(p)
  {
    assert ResetPlayer(ResetPlayer(p)).chessmen == ResetPlayer(p).chessmen;
  }

  /** `board.reset()`: every player of the roster is reset, in place. */
  function ResetPlayers(ps: seq<Player>): (r: seq<Player>)
    ensures |r| == |ps|
    ensures forall i :: 0 <= i < |ps| ==> r[i] == ResetPlayer(ps[i])
  {
    seq(|ps|, i requires 0 <= i < |ps| => ResetPlayer(ps[i]))
  }
}
