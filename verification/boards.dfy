/** The board's read-only queries: which pieces stand on a cell, and
    whether a cell is a piece's start or end. The board's moves and its
    cell-effect dispatch live in module `Engine`; `reset` is
    `Entities.ResetPlayers`. */
module Boards {
  import opened Base
  import opened Entities
  import opened Events
  import opened Blocks
  import opened MapProviders
  import SShapeMap

  /** `r` names a piece of `ps` that stands on `position`. */
  predicate At(ps: seq<Player>, r: ChessmanRef, position: int)
  {
    r.player < |ps| && r.index < |ps[r.player].chessmen| && ps[r.player].chessmen[r.index].position == position
  }

  /** Player-then-piece order. */
  predicate Before(a: ChessmanRef, b: ChessmanRef)
  {
    a.player < b.player || (a.player == b.player && a.index < b.index)
  }

  predicate Ordered(rs: seq<ChessmanRef>)
  {
    forall i, j :: 0 <= i < j < |rs| ==> Before(rs[i], rs[j])
  }

  /** The pieces of one fleet, from piece `from` on, that stand on
      `position`. */
  function FleetAt(cs: seq<Chessman>, player: nat, from: nat, position: int): seq<ChessmanRef>
    requires from <= |cs|
    decreases |cs| - from
  {
    if from == |cs| then []
    else (if cs[from].position == position then [ChessmanRef(player, from)] else [])
         + FleetAt(cs, player, from + 1, position)
  }

  /** The pieces of the players from `from` on that stand on `position`. */
  function RosterAt(ps: seq<Player>, from: nat, position: int): seq<ChessmanRef>
    requires from <= |ps|
    decreases |ps| - from
  {
    if from == |ps| then []
    else FleetAt(ps[from].chessmen, from, 0, position) + RosterAt(ps, from + 1, position)
  }

  /** `getChessmenAt(position)`; a roster that was never set gives no
      pieces. */
  function ChessmenAt(players: Option<seq<Player>>, position: int): seq<ChessmanRef>
  {
    match players
    case None => []
    case Some(ps) => RosterAt(ps, 0, position)
  }

  lemma {:induction false} FleetAtSpec(cs: seq<Chessman>, player: nat, from: nat, position: int)
    requires from <= |cs|
    ensures forall r :: r in FleetAt(cs, player, from, position) <==>
      r.player == player && from <= r.index < |cs| && cs[r.index].position == position
    ensures Ordered(FleetAt(cs, player, from, position))
    decreases |cs| - from
  {
    if from < |cs| {
      FleetAtSpec(cs, player, from + 1, position);
    }
  }

  lemma {:induction false} RosterAtSpec(ps: seq<Player>, from: nat, position: int)
    requires from <= |ps|
    ensures forall r :: r in RosterAt(ps, from, position) <==> from <= r.player && At(ps, r, position)
    ensures Ordered(RosterAt(ps, from, position))
    decreases |ps| - from
  {
    if from < |ps| {
      FleetAtSpec(ps[from].chessmen, from, 0, position);
      RosterAtSpec(ps, from + 1, position);
      var head := FleetAt(ps[from].chessmen, from, 0, position);
      var tail := RosterAt(ps, from + 1, position);
      assert forall i :: 0 <= i < |head| ==> head[i] in head;
      assert forall j :: 0 <= j < |tail| ==> tail[j] in tail;
    }
  }

  /** `getChessmenAt` returns exactly the pieces standing on the cell, each
      once, player by player and within a player in fleet order. */
  lemma ChessmenAtSpec(players: Option<seq<Player>>, position: int)
    ensures players.None? ==> ChessmenAt(players, position) == []
    ensures players.Some? ==>
      forall r :: r in ChessmenAt(players, position) <==> At(players.value, r, position)
    ensures Ordered(ChessmenAt(players, position))
  {
    if players.Some? {
      RosterAtSpec(players.value, 0, position);
    }
  }

  /** An ordered list never names a piece twice. */
  lemma OrderedDistinct(rs: seq<ChessmanRef>)
    requires Ordered(rs)
    ensures forall i, j :: 0 <= i < j < |rs| ==> rs[i] != rs[j]
  {
  }

  /** `inDestination(mapProvider, chessman, position)`. */
  function InDestination(mp: Option<MapProvider>, c: Option<Chessman>, position: int): bool
  {
    mp.Some? && c.Some? && position == EndPosition(mp.value, c.value.owner)
  }

  /** `inStart(chessman, position)`, against the context's map provider. */
  function InStart(mp: Option<MapProvider>, c: Option<Chessman>, position: int): bool
  {
    mp.Some? && c.Some? && position == StartPosition(mp.value, c.value.owner)
  }

  /** Without a map or a piece neither check holds. On the S-shaped map,
      for either of its two players, the cell `inStart` accepts is a start
      cell and the cell `inDestination` accepts is a destination cell, each
      on the owner's own lane, so no cell passes both. */
  lemma SShapeStartEnd(mp: Option<MapProvider>, c: Option<Chessman>, position: int)
    ensures mp.None? || c.None? ==> !InDestination(mp, c, position) && !InStart(mp, c, position)
    ensures mp == Some(SShapeProvider) && c.Some? && 0 <= c.value.owner <= 1 ==>
      && (InStart(mp, c, position) ==> LandingAt(SShapeProvider, position).0 == OnCell(Start))
      && (InDestination(mp, c, position) ==> LandingAt(SShapeProvider, position).0 == OnCell(Destination))
      && !(InStart(mp, c, position) && InDestination(mp, c, position))
  {
    if mp == Some(SShapeProvider) && c.Some? && 0 <= c.value.owner <= 1 {
      if InStart(mp, c, position) || InDestination(mp, c, position) {
        SShapeLanding(position);
      }
    }
  }
}
