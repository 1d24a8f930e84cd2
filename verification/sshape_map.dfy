/** The fixed two-lane S-shaped map on a 13 by 7 grid: player 0 runs cells
    0 to 24 in the upper half, player 1 runs cells 25 to 49 in the lower
    half. */
module SShapeMap {
  import opened Blocks
  import opened Grids

  const Width: nat := 13
  const Height: nat := 7
  const MapSize := 50
  const MinPlayers := 2
  const MaxPlayers := 2
  const MaxChessmanPerPlayer := 4

  /** `positionToXY`: the upper lane snakes right, down, left, down; the
      lower lane starts at the right, runs left, down, then right. Anything
      off both lanes is (-1, -1). */
  function PositionToXY(p: int): (int, int)
  {
    if 0 <= p <= 24 then
      if p <= 10 then (p, 0)
      else if p == 11 then (10, 1)
      else if p <= 22 then (10 - (p - 12), 2)
      else if p == 23 then (0, 3)
      else (1, 4)
    else if 25 <= p <= 49 then
      if p == 25 then (11, 4)
      else if p <= 36 then (11 - (p - 26), 5)
      else if p == 37 then (1, 6)
      else if p <= 48 then (2 + (p - 38), 6)
      else (12, 5)
    else (-1, -1)
  }

  /** The path cell a grid cell holds, -1 for cells on neither lane. */
  function PositionAt(x: int, y: int): int
  {
    if y == 0 && 0 <= x <= 10 then x
    else if y == 1 && x == 10 then 11
    else if y == 2 && 0 <= x <= 10 then 22 - x
    else if y == 3 && x == 0 then 23
    else if y == 4 && x == 1 then 24
    else if y == 4 && x == 11 then 25
    else if y == 5 && 1 <= x <= 11 then 37 - x
    else if y == 5 && x == 12 then 49
    else if y == 6 && x == 1 then 37
    else if y == 6 && 2 <= x <= 12 then x + 36
    else -1
  }

  /** Both lanes fit the grid and no two cells of them share a grid cell:
      `PositionAt` inverts the mapping. */
  lemma XYSpec(p: int)
    requires 0 <= p < MapSize
    ensures 0 <= PositionToXY(p).0 < Width && 0 <= PositionToXY(p).1 < Height
    ensures PositionAt(PositionToXY(p).0, PositionToXY(p).1) == p
  {
  }

  /** Every other position maps to (-1, -1). */
  lemma XYOffPath(p: int)
    requires p < 0 || p >= MapSize
    ensures PositionToXY(p) == (-1, -1)
  {
  }

  /** A grid cell that holds a path position is that position's cell. */
  lemma PositionAtSpec(x: int, y: int)
    requires PositionAt(x, y) != -1
    ensures 0 <= PositionAt(x, y) < MapSize
    ensures PositionToXY(PositionAt(x, y)) == (x, y)
  {
  }

  /** Cell kinds of the upper lane, checked in the order the source checks them. */
  function UpperRole(p: int): Block
  {
    if p == 0 then Start
    else if p == 24 then Destination
    else if p >= 17 then Lucky
    else if p == 5 then Mine
    else if p == 8 then SpeedUp
    else Normal
  }

  /** Cell kinds of the lower lane, checked in the order the source checks them. */
  function LowerRole(p: int): Block
  {
    if p == 25 then Start
    else if p == 49 then Destination
    else if p == 28 then Mine
    else if p >= 32 then Lucky
    else if p == 41 then Lucky
    else Normal
  }

  /** The kind of every upper-lane cell, stated by sets of positions. */
  lemma UpperRoleSpec(p: int)
    requires 0 <= p <= 24
    ensures UpperRole(p) == Start <==> p == 0
    ensures UpperRole(p) == Destination <==> p == 24
    ensures UpperRole(p) == Mine <==> p == 5
    ensures UpperRole(p) == SpeedUp <==> p == 8
    ensures UpperRole(p) == Lucky <==> 17 <= p <= 23
    ensures UpperRole(p) == Normal <==> 0 < p < 17 && p != 5 && p != 8
  {
  }

  /** The kind of every lower-lane cell, stated by sets of positions; the
      separate test for 41 never decides anything, 41 being past 32. */
  lemma LowerRoleSpec(p: int)
    requires 25 <= p <= 49
    ensures LowerRole(p) == Start <==> p == 25
    ensures LowerRole(p) == Destination <==> p == 49
    ensures LowerRole(p) == Mine <==> p == 28
    ensures LowerRole(p) == Lucky <==> 32 <= p <= 48
    ensures LowerRole(p) == Normal <==> 25 < p < 32 && p != 28
    ensures LowerRole(p) != SpeedUp
  {
  }

  function OffPathNode(): Node
  {
    NewNode(-1, Empty)
  }

  /** `initMap`: every cell empty, then the upper lane, then the lower one. */
  function InitMap(): (g: Grid)
    ensures Rect(g, Height, Width)
  {
    Place(UpperLane(), 25, 50, PositionToXY, LowerRole)
  }

  /** All fifty path positions at once: inside the grid and inverted by
      `PositionAt`. */
  lemma AllXY()
    ensures forall p :: 0 <= p < MapSize ==>
      0 <= PositionToXY(p).0 < Width && 0 <= PositionToXY(p).1 < Height
      && PositionAt(PositionToXY(p).0, PositionToXY(p).1) == p
  {
    forall p | 0 <= p < MapSize
      ensures 0 <= PositionToXY(p).0 < Width && 0 <= PositionToXY(p).1 < Height
      ensures PositionAt(PositionToXY(p).0, PositionToXY(p).1) == p
    {
      XYSpec(p);
    }
  }

  lemma LaneInjective(g: Grid, lo: int, hi: int)
    requires 0 <= lo && hi <= MapSize
    ensures Injective(g, lo, hi, PositionToXY)
  {
    AllXY();
  }

  function UpperLane(): (g: Grid)
    ensures Rect(g, Height, Width)
  {
    Place(Filled(Height, Width, OffPathNode()), 0, 25, PositionToXY, UpperRole)
  }

  /** After the upper lane its cells hold their positions. */
  lemma UpperLaneCells()
    ensures forall p :: 0 <= p < 25 ==>
      InGrid(UpperLane(), PositionToXY(p).0, PositionToXY(p).1)
      && UpperLane()[PositionToXY(p).1][PositionToXY(p).0] == NewNode(p, UpperRole(p))
  {
    var blank := Filled(Height, Width, OffPathNode());
    LaneInjective(blank, 0, 25);
    PlaceHits(blank, 0, 25, PositionToXY, UpperRole);
    LanesInGrid(blank);
  }

  /** A grid cell that holds no upper-lane position is not the cell of
      any upper-lane position. */
  lemma UpperMisses(x: int, y: int)
    requires !(0 <= PositionAt(x, y) < 25)
    ensures forall p :: 0 <= p < 25 ==> PositionToXY(p) != (x, y)
  {
    forall p | 0 <= p < 25 ensures PositionToXY(p) != (x, y) {
      XYSpec(p);
    }
  }

  /** Likewise for the lower lane. */
  lemma LowerMisses(x: int, y: int)
    requires !(25 <= PositionAt(x, y) < 50)
    ensures forall p :: 25 <= p < 50 ==> PositionToXY(p) != (x, y)
  {
    forall p | 25 <= p < 50 ensures PositionToXY(p) != (x, y) {
      XYSpec(p);
    }
  }

  /** After the upper lane every cell it does not use is still blank. */
  lemma UpperLaneBlank()
    ensures forall y, x :: 0 <= y < Height && 0 <= x < Width && !(0 <= PositionAt(x, y) < 25) ==>
      UpperLane()[y][x] == OffPathNode()
  {
    var blank := Filled(Height, Width, OffPathNode());
    PlaceMisses(blank, 0, 25, PositionToXY, UpperRole);
    forall y, x | 0 <= y < Height && 0 <= x < Width && !(0 <= PositionAt(x, y) < 25)
      ensures forall p :: 0 <= p < 25 ==> PositionToXY(p) != (x, y)
    {
      UpperMisses(x, y);
    }
  }

  /** Laying the lower lane keeps the upper lane's cells. */
  lemma InitMapUpper()
    ensures forall p :: 0 <= p < 25 ==>
      InGrid(InitMap(), PositionToXY(p).0, PositionToXY(p).1)
      && InitMap()[PositionToXY(p).1][PositionToXY(p).0] == NewNode(p, UpperRole(p))
  {
    var upper := UpperLane();
    UpperLaneCells();
    PlaceMisses(upper, 25, 50, PositionToXY, LowerRole);
    forall p | 0 <= p < 25
      ensures forall q :: 25 <= q < 50 ==> PositionToXY(q) != (PositionToXY(p).0, PositionToXY(p).1)
    {
      XYSpec(p);
      LowerMisses(PositionToXY(p).0, PositionToXY(p).1);
    }
  }

  /** The lower lane's cells hold their positions. */
  lemma InitMapLower()
    ensures forall p :: 25 <= p < 50 ==>
      InGrid(InitMap(), PositionToXY(p).0, PositionToXY(p).1)
      && InitMap()[PositionToXY(p).1][PositionToXY(p).0] == NewNode(p, LowerRole(p))
  {
    var upper := UpperLane();
    LaneInjective(upper, 25, 50);
    PlaceHits(upper, 25, 50, PositionToXY, LowerRole);
    LanesInGrid(upper);
  }

  /** Every path position has its cell inside a 7 by 13 grid. */
  lemma LanesInGrid(g: Grid)
    requires Rect(g, Height, Width)
    ensures forall p :: 0 <= p < MapSize ==> InGrid(g, PositionToXY(p).0, PositionToXY(p).1)
  {
    forall p | 0 <= p < MapSize ensures InGrid(g, PositionToXY(p).0, PositionToXY(p).1) {
      XYSpec(p);
    }
  }

  /** The grid is 7 rows of 13 and the cell at `positionToXY(p)` holds `p`
      with its lane's kind. */
  lemma InitMapCells()
    ensures forall p :: 0 <= p < 25 ==>
      InGrid(InitMap(), PositionToXY(p).0, PositionToXY(p).1)
      && InitMap()[PositionToXY(p).1][PositionToXY(p).0] == NewNode(p, UpperRole(p))
    ensures forall p :: 25 <= p < 50 ==>
      InGrid(InitMap(), PositionToXY(p).0, PositionToXY(p).1)
      && InitMap()[PositionToXY(p).1][PositionToXY(p).0] == NewNode(p, LowerRole(p))
  {
    InitMapUpper();
    InitMapLower();
  }

  /** Every cell on neither lane is an empty cell at position -1. */
  lemma InitMapBlank()
    ensures forall y, x :: 0 <= y < Height && 0 <= x < Width && PositionAt(x, y) == -1 ==>
      InitMap()[y][x] == OffPathNode()
  {
    var upper := UpperLane();
    UpperLaneBlank();
    PlaceMisses(upper, 25, 50, PositionToXY, LowerRole);
    forall y, x | 0 <= y < Height && 0 <= x < Width && PositionAt(x, y) == -1
      ensures forall p :: 25 <= p < 50 ==> PositionToXY(p) != (x, y)
    {
      LowerMisses(x, y);
    }
  }

  /** Player 0 starts at 0, player 1 at 25, anyone else at 0. */
  function StartPosition(playerIndex: int): (r: int)
    ensures playerIndex == 0 ==> r == 0
    ensures playerIndex == 1 ==> r == 25
    ensures playerIndex != 0 && playerIndex != 1 ==> r == 0
  {
    match playerIndex
    case 1 => 25
    case _ => 0
  }

  /** Player 0 ends at 24, player 1 at 49, anyone else at the last cell. */
  function EndPosition(playerIndex: int): (r: int)
  {
    match playerIndex
    case 0 => 24
    case 1 => 49
    case _ => MapSize - 1
  }

  /** Each of the two players runs a lane of 25 cells from a start cell to
      a destination cell, the lanes do not overlap, and any other index
      falls back to cell 0 and the last cell. */
  lemma LanesSpec(playerIndex: int)
    ensures playerIndex == 0 ==> StartPosition(0) == 0 && EndPosition(0) == 24
    ensures playerIndex == 1 ==> StartPosition(1) == 25 && EndPosition(1) == 49
    ensures playerIndex in {0, 1} ==>
      EndPosition(playerIndex) - StartPosition(playerIndex) == 24
      && UpperRole(StartPosition(0)) == Start && UpperRole(EndPosition(0)) == Destination
      && LowerRole(StartPosition(1)) == Start && LowerRole(EndPosition(1)) == Destination
    ensures !(playerIndex in {0, 1}) ==>
      StartPosition(playerIndex) == 0 && EndPosition(playerIndex) == MapSize - 1
  {
  }
}
