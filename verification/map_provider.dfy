/** The two map providers behind one interface: what the engine asks a map
    for (start and end cells, coordinates, the grid) and what landing on a
    path position finds there. */
module MapProviders {
  import opened Base
  import opened Blocks
  import opened Grids
  import RandomMaps
  import SShapeMap

  datatype MapProvider = RandomProvider(m: RandomMaps.RandomMap) | SShapeProvider

  /** The name a provider is registered under. */
  function MapName(mp: MapProvider): (r: string)
    ensures mp.RandomProvider? <==> r == "random"
    ensures mp.SShapeProvider? <==> r == "default"
  {
    match mp
    case RandomProvider(_) => "random"
    case SShapeProvider => "default"
  }

  function MinPlayers(mp: MapProvider): int
  {
    match mp
    case RandomProvider(_) => RandomMaps.MinPlayers
    case SShapeProvider => SShapeMap.MinPlayers
  }

  function MaxPlayers(mp: MapProvider): int
  {
    match mp
    case RandomProvider(_) => RandomMaps.MaxPlayers
    case SShapeProvider => SShapeMap.MaxPlayers
  }

  function MaxChessmanPerPlayer(mp: MapProvider): int
  {
    match mp
    case RandomProvider(_) => RandomMaps.MaxChessmanPerPlayer
    case SShapeProvider => SShapeMap.MaxChessmanPerPlayer
  }

  /** Both maps admit at least two players and at least one piece each. */
  lemma RosterBounds(mp: MapProvider)
    ensures 2 <= MinPlayers(mp) <= MaxPlayers(mp)
    ensures MaxChessmanPerPlayer(mp) == 4
    ensures mp.SShapeProvider? ==> MinPlayers(mp) == MaxPlayers(mp) == 2
    ensures mp.RandomProvider? ==> MinPlayers(mp) == 2 && MaxPlayers(mp) == 4
  {
  }

  function StartPosition(mp: MapProvider, playerIndex: int): int
  {
    match mp
    case RandomProvider(m) => RandomMaps.StartPosition(m, playerIndex)
    case SShapeProvider => SShapeMap.StartPosition(playerIndex)
  }

  function EndPosition(mp: MapProvider, playerIndex: int): int
  {
    match mp
    case RandomProvider(m) => RandomMaps.EndPosition(m, playerIndex)
    case SShapeProvider => SShapeMap.EndPosition(playerIndex)
  }

  function PositionToXY(mp: MapProvider, p: int): (int, int)
  {
    match mp
    case RandomProvider(_) => RandomMaps.PositionToXY(p)
    case SShapeProvider => SShapeMap.PositionToXY(p)
  }

  /** `getMap()` together with the provider as it is afterwards: the random
      map builds and keeps its grid on first use, the S-shaped map was
      built by its constructor. */
  function GetMap(mp: MapProvider): (r: (Grid, MapProvider))
    ensures mp.SShapeProvider? ==> r == (SShapeMap.InitMap(), mp)
    ensures mp.RandomProvider? ==> r.1.RandomProvider? && (r.0, r.1.m) == RandomMaps.GetMap(mp.m)
  {
    match mp
    case RandomProvider(m) =>
      var (g, m') := RandomMaps.GetMap(m);
      (g, RandomProvider(m'))
    case SShapeProvider => (SShapeMap.InitMap(), mp)
  }

  /** The grid a provider shows does not change once shown. */
  lemma GetMapStable(mp: MapProvider)
    ensures GetMap(GetMap(mp).1) == GetMap(mp)
  {
    if mp.RandomProvider? {
      RandomMaps.GetMapMemoised(mp.m);
    }
  }

  /** What the board finds for a piece at a path position. */
  datatype Landing =
    | OffMap            // a negative coordinate: nothing happens
    | OutOfBounds       // an index outside the grid: the lookup throws
    | OnCell(block: Block)

  /** The board's cell lookup: coordinates first, and only when both are
      non-negative the grid (which may build it), then the cell. */
  function LandingAt(mp: MapProvider, p: int): (r: (Landing, MapProvider))
    ensures var (x, y) := PositionToXY(mp, p);
      && (r.0.OffMap? <==> x < 0 || y < 0)
      && (r.0.OffMap? ==> r.1 == mp)
      && (!r.0.OffMap? ==> r.1 == GetMap(mp).1)
      && (r.0.OutOfBounds? <==> x >= 0 && y >= 0 && !InGrid(GetMap(mp).0, x, y))
      && (r.0.OnCell? ==> InGrid(GetMap(mp).0, x, y) && r.0.block == GetMap(mp).0[y][x].block)
  {
    var (x, y) := PositionToXY(mp, p);
    if x < 0 || y < 0 then (OffMap, mp)
    else
      var (grid, mp') := GetMap(mp);
      if InGrid(grid, x, y) then (OnCell(grid[y][x].block), mp') else (OutOfBounds, mp')
  }

  /** On the S-shaped map a piece on either lane lands on that lane's cell
      and a piece anywhere else lands nowhere. */
  lemma SShapeLanding(p: int)
    ensures 0 <= p < 25 ==> LandingAt(SShapeProvider, p) == (OnCell(SShapeMap.UpperRole(p)), SShapeProvider)
    ensures 25 <= p < 50 ==> LandingAt(SShapeProvider, p) == (OnCell(SShapeMap.LowerRole(p)), SShapeProvider)
    ensures !(0 <= p < 50) ==> LandingAt(SShapeProvider, p) == (OffMap, SShapeProvider)
  {
    if 0 <= p < 50 {
      SShapeMap.InitMapCells();
    } else {
      SShapeMap.XYOffPath(p);
    }
  }

  /** On a random map whose grid is still to be built, a piece on the
      path lands on the cell the drawn pattern gives its position, a piece
      off the board (negative) lands nowhere, and a piece past the path
      lands on an empty cell or outside the grid. */
  lemma RandomLanding(m: RandomMaps.RandomMap, p: int)
    requires m.nodes.None?
    ensures var pattern := RandomMaps.GenerateBlockPattern(m.pathLength, m.rng).0;
      0 <= p < m.pathLength ==>
        LandingAt(RandomProvider(m), p).0 == OnCell(RandomMaps.RoleAt(pattern, m.pathLength, p))
    ensures p < 0 ==> LandingAt(RandomProvider(m), p).0 == OffMap
    ensures p >= m.pathLength ==> LandingAt(RandomProvider(m), p).0 in {OnCell(Empty), OutOfBounds}
  {
    var pattern := RandomMaps.GenerateBlockPattern(m.pathLength, m.rng).0;
    var grid := RandomMaps.Build(m.pathLength, pattern);
    assert GetMap(RandomProvider(m)).0 == grid;
    if p < 0 {
      RandomMaps.NegativeOffGrid(p);
    } else {
      RandomMaps.BuildSpec(m.pathLength, pattern);
      RandomMaps.XYSpec(p);
      var (x, y) := RandomMaps.PositionToXY(p);
      if p < m.pathLength {
        assert InGrid(grid, x, y) && grid[y][x] == NewNode(p, RandomMaps.RoleAt(pattern, m.pathLength, p));
      } else if 0 <= y < RandomMaps.GridHeight(m.pathLength) {
        assert RandomMaps.PathIndex(x, y) >= m.pathLength;
        assert grid[y][x] == RandomMaps.OffPathNode();
      }
    }
  }
}
