/** The random serpentine map: a path of `pathLength` cells laid out on a
    grid 13 cells wide, left to right on even rows and right to left on odd
    ones, with special cells spread over the path by a seeded generator. */
module RandomMaps {
  import opened Base
  import opened Blocks
  import opened Grids

  const GridWidth: nat := 13
  const MinPlayers := 2
  const MaxPlayers := 4
  const MaxChessmanPerPlayer := 4
  const MinPathLength := 20
  const MaxPathLength := 100

  /** `nodes` is the memoised grid, absent until the first `getMap`. */
  datatype RandomMap = RandomMap(playerCount: int, pathLength: nat, rng: Rng, nodes: Option<Grid>)

  /** The constructor: 2 to 4 players and a path of 20 to 100 cells, else
      an error; the grid is not built yet. */
  function New(playerCount: int, pathLength: int, rng: Rng): (r: Result<RandomMap, string>)
    ensures r.Ok? <==> MinPlayers <= playerCount <= MaxPlayers && MinPathLength <= pathLength <= MaxPathLength
    ensures r.Ok? ==>
      && r.value.playerCount == playerCount && r.value.pathLength == pathLength
      && r.value.rng == rng && r.value.nodes.None?
  {
    if playerCount < 2 || playerCount > 4 then Err("玩家数量必须在2-4之间")
    else if pathLength < 20 || pathLength > 100 then Err("路径长度必须在20-100之间")
    else Ok(RandomMap(playerCount, pathLength, rng, None))
  }

  /** Number of rows: the path length divided by the width, rounded up. */
  function GridHeight(pathLength: nat): nat
  {
    (pathLength + GridWidth - 1) / GridWidth
  }

  /** The height is the least number of full rows that holds the path. */
  lemma GridHeightSpec(pathLength: nat)
    ensures GridHeight(pathLength) * GridWidth >= pathLength
    ensures GridHeight(pathLength) > 0 ==> (GridHeight(pathLength) - 1) * GridWidth < pathLength
  {
  }

  /** `positionToXY` with Java's truncating `/` and `%`. */
  function PositionToXY(position: int): (int, int)
  {
    var row := JDiv(position, GridWidth);
    var col := JMod(position, GridWidth);
    if JMod(row, 2) == 0 then (col, row) else (GridWidth - 1 - col, row)
  }

  /** The path position a grid cell holds: the inverse of the serpentine. */
  function PathIndex(x: int, y: int): int
  {
    if y % 2 == 0 then y * GridWidth + x else y * GridWidth + (GridWidth - 1 - x)
  }

  /** On the path the mapping is a bijection onto the cells of the grid:
      it lands inside the 13 columns, on row `p / 13`, and `PathIndex`
      inverts it. */
  lemma XYSpec(p: int)
    requires p >= 0
    ensures 0 <= PositionToXY(p).0 < GridWidth
    ensures PositionToXY(p).1 == p / GridWidth
    ensures PathIndex(PositionToXY(p).0, PositionToXY(p).1) == p
  {
  }

  /** Every cell of the grid is the image of its path index. */
  lemma XYOnto(x: int, y: int)
    requires 0 <= x < GridWidth && 0 <= y
    ensures PathIndex(x, y) >= 0
    ensures PositionToXY(PathIndex(x, y)) == (x, y)
  {
    var c := if y % 2 == 0 then x else GridWidth - 1 - x;
    var p := y * GridWidth + c;
    assert PathIndex(x, y) == p;
    DivModUnique(p, y, c);
    assert JDiv(p, GridWidth) == y && JMod(p, GridWidth) == c;
    assert JMod(y, 2) == y % 2;
  }

  /** Splitting `y * 13 + c` with `0 <= c < 13` gives back `y` and `c`. */
  lemma DivModUnique(p: int, y: int, c: int)
    requires 0 <= y && 0 <= c < GridWidth && p == y * GridWidth + c
    ensures p / GridWidth == y && p % GridWidth == c
  {
  }

  /** A piece off the board (the hangar is -1) maps to no cell. */
  lemma NegativeOffGrid(p: int)
    requires p < 0
    ensures PositionToXY(p).0 < 0 || PositionToXY(p).1 < 0
  {
  }

  /** Distinct path positions go to distinct cells. */
  lemma XYInjective(p: int, q: int)
    requires 0 <= p && 0 <= q && p != q
    ensures PositionToXY(p) != PositionToXY(q)
  {
    XYSpec(p);
    XYSpec(q);
  }

  /** The number of cells of each special kind: a tenth lucky, 8% speed-up,
      6% slow-down, 3% teleport, and 4% mines but never more than a tenth. */
  datatype BlockCounts = BlockCounts(lucky: nat, speedUp: nat, slowDown: nat, mine: nat, teleport: nat)

  function CountsFor(pathLength: nat): BlockCounts
  {
    var mine := pathLength * 4 / 100;
    BlockCounts(pathLength * 10 / 100, pathLength * 8 / 100, pathLength * 6 / 100,
                if mine < pathLength / 10 then mine else pathLength / 10,
                pathLength * 3 / 100)
  }

  /** How many entries of `s` are `b`. */
  function Count(s: seq<Block>, b: Block): nat
  {
    multiset(s)[b]
  }

  /** The first index from `pos` on that still holds a normal cell, or
      `end` when there is none before it. */
  function NextFree(pattern: seq<Block>, pos: int, end: int): (r: int)
    requires 0 <= pos <= end <= |pattern|
    ensures pos <= r <= end
    ensures r < end ==> pattern[r] == Normal
    ensures forall j :: pos <= j < r ==> pattern[j] != Normal
    decreases end - pos
  {
    if pos < end && pattern[pos] != Normal then NextFree(pattern, pos + 1, end) else pos
  }

  /** `distributeBlocks`: `count` cells of kind `t`, one per slice of the
      range `[start, end)`, each at a random offset in its slice and moved
      forward past cells already taken. */
  function DistributeBlocks(pattern: seq<Block>, t: Block, count: int, start: int, end: int, g: Rng)
    : (r: (seq<Block>, Rng))
    requires 0 <= start && end <= |pattern|
    requires t != Normal
    ensures |r.0| == |pattern|
    ensures forall j :: 0 <= j < |pattern| && r.0[j] != pattern[j] ==>
      start <= j < end && pattern[j] == Normal && r.0[j] == t
    ensures count > 0 ==> Count(r.0, t) <= Count(pattern, t) + count
    ensures count <= 0 ==> r.0 == pattern
    ensures forall u :: u != t && u != Normal ==> Count(r.0, u) == Count(pattern, u)
  {
    if count <= 0 || end - start <= 0 then (pattern, g)
    else DistributeFrom(pattern, t, count, start, end, 0, g)
  }

  /** Slices `i .. count-1` of `distributeBlocks`. */
  function DistributeFrom(pattern: seq<Block>, t: Block, count: nat, start: int, end: int, i: nat, g: Rng)
    : (r: (seq<Block>, Rng))
    requires 0 <= start < end <= |pattern| && 0 < count && i <= count
    requires t != Normal
    ensures |r.0| == |pattern|
    ensures forall j :: 0 <= j < |pattern| && r.0[j] != pattern[j] ==>
      start <= j < end && pattern[j] == Normal && r.0[j] == t
    ensures Count(r.0, t) <= Count(pattern, t) + (count - i)
    ensures forall u :: u != t && u != Normal ==> Count(r.0, u) == Count(pattern, u)
    decreases count - i
  {
    if i == count then (pattern, g)
    else
      var (offset, g') := NextInt(g, (end - start) / count + 1).value;
      var free := NextFree(pattern, SlotFor(start, end, count, i, offset), end);
      var pattern' := if free < end then Put(pattern, free, t) else pattern;
      DistributeFrom(pattern', t, count, start, end, i + 1, g')
  }

  /** Where slice `i` of `count` over `[start, end)` aims: its base plus
      the drawn offset, held back to the last cell of the range. */
  function SlotFor(start: int, end: int, count: nat, i: nat, offset: int): (pos: int)
    requires 0 <= start < end && 0 < count && i < count && 0 <= offset
    ensures start <= pos < end
  {
    var basePos := start + i * (end - start) / count;
    assert i * (end - start) >= 0;
    if basePos + offset < end - 1 then basePos + offset else end - 1
  }

  /** Writing a special kind `t` over a normal cell: one more `t`, every
      other special kind as many as before. */
  function Put(pattern: seq<Block>, j: nat, t: Block): (r: seq<Block>)
    requires j < |pattern| && pattern[j] == Normal && t != Normal
    ensures |r| == |pattern| && r[j] == t
    ensures forall k :: 0 <= k < |r| && k != j ==> r[k] == pattern[k]
    ensures Count(r, t) == Count(pattern, t) + 1
    ensures forall u :: u != t && u != Normal ==> Count(r, u) == Count(pattern, u)
  {
    pattern[j := t]
  }

  /** `hasMineNearby`: a mine other than `pos` itself within two cells. */
  predicate HasMineNearby(pattern: seq<Block>, pos: int)
  {
    MineBetween(pattern, if pos - 2 < 0 then 0 else pos - 2, pos + 2, pos)
  }

  /** The scan of `hasMineNearby`: some index `i` with `lo <= i <= hi`,
      `i` inside the pattern and `i != pos`, holds a mine. */
  predicate MineBetween(pattern: seq<Block>, lo: int, hi: int, pos: int)
    decreases hi - lo
  {
    if lo > hi || lo >= |pattern| || lo < 0 then false
    else (lo != pos && pattern[lo] == Mine) || MineBetween(pattern, lo + 1, hi, pos)
  }

  lemma {:induction false} MineBetweenSpec(pattern: seq<Block>, lo: int, hi: int, pos: int)
    requires 0 <= lo
    ensures MineBetween(pattern, lo, hi, pos) <==>
      exists i :: lo <= i <= hi && i < |pattern| && i != pos && pattern[i] == Mine
    decreases hi - lo
  {
    if !(lo > hi || lo >= |pattern|) {
      MineBetweenSpec(pattern, lo + 1, hi, pos);
    }
  }

  /** No two mines closer than three cells. */
  predicate MinesSpaced(pattern: seq<Block>)
  {
    forall i, j ::
      0 <= i < |pattern| && 0 <= j < |pattern| && i != j && pattern[i] == Mine && pattern[j] == Mine
      ==> i - j > 2 || j - i > 2
  }

  lemma NearbySpec(pattern: seq<Block>, pos: int)
    requires 0 <= pos < |pattern|
    ensures !HasMineNearby(pattern, pos) ==>
      forall i :: 0 <= i < |pattern| && i != pos && pattern[i] == Mine ==> i - pos > 2 || pos - i > 2
  {
    MineBetweenSpec(pattern, if pos - 2 < 0 then 0 else pos - 2, pos + 2, pos);
  }

  /** The state of the mine loop: pattern, generator, mines placed so far
      and draws made. */
  datatype MineRun = MineRun(pattern: seq<Block>, rng: Rng, placed: nat, attempts: nat)

  /** `distributeMines`: up to `count` mines, each drawn uniformly from
      `[start, end)` and kept only on a normal cell with no mine within two
      cells, giving up after `10 * count` draws. */
  function DistributeMines(pattern: seq<Block>, count: int, start: int, end: int, g: Rng): (r: MineRun)
    requires 0 <= start && end <= |pattern|
    requires count > 0 ==> start < end
    ensures |r.pattern| == |pattern|
    ensures count <= 0 ==> r.pattern == pattern && r.attempts == 0
    ensures count > 0 ==> r.placed <= count && r.attempts <= 10 * count
    ensures Count(r.pattern, Mine) == Count(pattern, Mine) + r.placed
    ensures forall j :: 0 <= j < |pattern| && r.pattern[j] != pattern[j] ==>
      start <= j < end && pattern[j] == Normal && r.pattern[j] == Mine
    ensures forall u :: u != Mine && u != Normal ==> Count(r.pattern, u) == Count(pattern, u)
    ensures MinesSpaced(pattern) ==> MinesSpaced(r.pattern)
  {
    if count <= 0 then MineRun(pattern, g, 0, 0)
    else MinesFrom(MineRun(pattern, g, 0, 0), count, start, end)
  }

  function MinesFrom(s: MineRun, count: nat, start: int, end: int): (r: MineRun)
    requires 0 <= start < end <= |s.pattern|
    requires s.placed <= count && s.attempts <= 10 * count
    ensures |r.pattern| == |s.pattern|
    ensures s.placed <= r.placed <= count && s.attempts <= r.attempts <= 10 * count
    ensures Count(r.pattern, Mine) == Count(s.pattern, Mine) + (r.placed - s.placed)
    ensures forall j :: 0 <= j < |s.pattern| && r.pattern[j] != s.pattern[j] ==>
      start <= j < end && s.pattern[j] == Normal && r.pattern[j] == Mine
    ensures forall u :: u != Mine && u != Normal ==> Count(r.pattern, u) == Count(s.pattern, u)
    ensures MinesSpaced(s.pattern) ==> MinesSpaced(r.pattern)
    decreases 10 * count - s.attempts
  {
    if s.placed >= count || s.attempts >= 10 * count then s
    else
      var (v, g') := NextInt(s.rng, end - start).value;
      var pos := start + v;
      if s.pattern[pos] == Normal && !HasMineNearby(s.pattern, pos) then
        MinesFrom(MineRun(PutMine(s.pattern, pos), g', s.placed + 1, s.attempts + 1), count, start, end)
      else
        MinesFrom(MineRun(s.pattern, g', s.placed, s.attempts + 1), count, start, end)
  }

  /** Laying a mine on a normal cell with no mine within two cells: one
      more mine, the other kinds unchanged, and the spacing kept. */
  function PutMine(pattern: seq<Block>, pos: nat): (r: seq<Block>)
    requires pos < |pattern| && pattern[pos] == Normal && !HasMineNearby(pattern, pos)
    ensures |r| == |pattern| && r[pos] == Mine
    ensures forall k :: 0 <= k < |r| && k != pos ==> r[k] == pattern[k]
    ensures Count(r, Mine) == Count(pattern, Mine) + 1
    ensures forall u :: u != Mine && u != Normal ==> Count(r, u) == Count(pattern, u)
    ensures MinesSpaced(pattern) ==> MinesSpaced(r)
  {
    NearbySpec(pattern, pos);
    Put(pattern, pos, Mine)
  }

  /** First and last protected cells: no special cell on the first two
      cells of the path nor on its last three. */
  const SafeZoneStart := 2

  function SafeZoneEnd(pathLength: nat): int
  {
    pathLength - 3
  }

  /** The kinds a pattern may hold. */
  predicate PatternKind(b: Block)
  {
    b in {Normal, Lucky, SpeedUp, SlowDown, Teleport, Mine}
  }

  /** A pattern of the right length, of pattern kinds only, with the
      protected cells left normal. */
  predicate Shaped(p: seq<Block>, pathLength: nat)
  {
    && |p| == pathLength
    && (forall j :: 0 <= j < pathLength ==> PatternKind(p[j]))
    && (forall j :: 0 <= j < pathLength && (j < SafeZoneStart || j >= SafeZoneEnd(pathLength)) ==>
          p[j] == Normal)
  }

  /** Overwriting normal cells of the unprotected range with a pattern kind
      keeps a pattern shaped. */
  lemma ShapedStep(p: seq<Block>, r: seq<Block>, t: Block, pathLength: nat)
    requires Shaped(p, pathLength) && |r| == |p| && PatternKind(t)
    requires forall j :: 0 <= j < |p| && r[j] != p[j] ==>
      SafeZoneStart <= j < SafeZoneEnd(pathLength) && p[j] == Normal && r[j] == t
    ensures Shaped(r, pathLength)
  {
    forall j | 0 <= j < pathLength
      ensures PatternKind(r[j])
      ensures (j < SafeZoneStart || j >= SafeZoneEnd(pathLength)) ==> r[j] == Normal
    {
      if r[j] != p[j] {
      }
    }
  }

  /** `n` normal cells. */
  function AllNormal(n: nat): (p: seq<Block>)
    ensures Shaped(p, n)
    ensures forall b :: b != Normal ==> Count(p, b) == 0
    ensures MinesSpaced(p)
  {
    var p := seq(n, _ => Normal);
    assert forall b :: b != Normal ==> b !in multiset(p);
    p
  }

  /** One round of `distributeBlocks` over the unprotected range of a
      shaped pattern. */
  function AddKind(p: seq<Block>, t: Block, count: int, g: Rng): (r: (seq<Block>, Rng))
    requires Shaped(p, |p|) && t in {Lucky, SpeedUp, SlowDown, Teleport}
    ensures Shaped(r.0, |p|)
    ensures Count(r.0, t) <= Count(p, t) + (if count > 0 then count else 0)
    ensures t != Lucky ==> Count(r.0, Lucky) == Count(p, Lucky)
    ensures t != SpeedUp ==> Count(r.0, SpeedUp) == Count(p, SpeedUp)
    ensures t != SlowDown ==> Count(r.0, SlowDown) == Count(p, SlowDown)
    ensures t != Teleport ==> Count(r.0, Teleport) == Count(p, Teleport)
    ensures Count(r.0, Mine) == Count(p, Mine)
  {
    var r := DistributeBlocks(p, t, count, SafeZoneStart, SafeZoneEnd(|p|), g);
    ShapedStep(p, r.0, t, |p|);
    r
  }

  /** The lucky cells spread over an all-normal path. */
  function LuckyPlaced(pathLength: nat, c: BlockCounts, g: Rng): (r: (seq<Block>, Rng))
    ensures Shaped(r.0, pathLength)
    ensures Count(r.0, Lucky) <= c.lucky
    ensures Count(r.0, SpeedUp) == 0 && Count(r.0, SlowDown) == 0
    ensures Count(r.0, Teleport) == 0 && Count(r.0, Mine) == 0
  {
    AddKind(AllNormal(pathLength), Lucky, c.lucky, g)
  }

  /** Then the speed-up cells. */
  function SpeedUpPlaced(pathLength: nat, c: BlockCounts, g: Rng): (r: (seq<Block>, Rng))
    ensures Shaped(r.0, pathLength)
    ensures Count(r.0, Lucky) <= c.lucky && Count(r.0, SpeedUp) <= c.speedUp
    ensures Count(r.0, SlowDown) == 0 && Count(r.0, Teleport) == 0 && Count(r.0, Mine) == 0
  {
    var (p, g') := LuckyPlaced(pathLength, c, g);
    AddKind(p, SpeedUp, c.speedUp, g')
  }

  /** Then the slow-down cells. */
  function SlowDownPlaced(pathLength: nat, c: BlockCounts, g: Rng): (r: (seq<Block>, Rng))
    ensures Shaped(r.0, pathLength)
    ensures Count(r.0, Lucky) <= c.lucky && Count(r.0, SpeedUp) <= c.speedUp
    ensures Count(r.0, SlowDown) <= c.slowDown && Count(r.0, Teleport) == 0 && Count(r.0, Mine) == 0
  {
    var (p, g') := SpeedUpPlaced(pathLength, c, g);
    AddKind(p, SlowDown, c.slowDown, g')
  }

  /** The four evenly spread kinds, in the order the source places them:
      lucky, speed-up, slow-down, teleport. */
  function SpreadBlocks(pathLength: nat, c: BlockCounts, g: Rng): (r: (seq<Block>, Rng))
    ensures Shaped(r.0, pathLength)
    ensures Count(r.0, Lucky) <= c.lucky && Count(r.0, SpeedUp) <= c.speedUp
    ensures Count(r.0, SlowDown) <= c.slowDown && Count(r.0, Teleport) <= c.teleport
    ensures Count(r.0, Mine) == 0
  {
    var (p, g') := SlowDownPlaced(pathLength, c, g);
    AddKind(p, Teleport, c.teleport, g')
  }

  /** A pattern without mines has its (no) mines spaced. */
  lemma NoMinesSpaced(p: seq<Block>)
    requires Count(p, Mine) == 0
    ensures MinesSpaced(p)
  {
    forall j | 0 <= j < |p| ensures p[j] != Mine {
      assert p[j] in multiset(p);
    }
  }

  /** There are mines to place only on a path of at least 25 cells. */
  lemma MineCountNeedsRoom(pathLength: nat)
    ensures CountsFor(pathLength).mine > 0 ==> SafeZoneStart < SafeZoneEnd(pathLength)
  {
    if pathLength < 25 {
      assert pathLength * 4 < 100;
    }
  }

  /** `generateBlockPattern`: an all-normal path, then lucky, speed-up,
      slow-down and teleport cells spread evenly, then the mines. */
  function GenerateBlockPattern(pathLength: nat, g: Rng): (r: (seq<Block>, Rng))
    ensures Shaped(r.0, pathLength)
    ensures Count(r.0, Lucky) <= CountsFor(pathLength).lucky
    ensures Count(r.0, SpeedUp) <= CountsFor(pathLength).speedUp
    ensures Count(r.0, SlowDown) <= CountsFor(pathLength).slowDown
    ensures Count(r.0, Teleport) <= CountsFor(pathLength).teleport
    ensures Count(r.0, Mine) <= CountsFor(pathLength).mine
    ensures MinesSpaced(r.0)
  {
    var c := CountsFor(pathLength);
    MineCountNeedsRoom(pathLength);
    var (p, g') := SpreadBlocks(pathLength, c, g);
    AddMines(p, c.mine, g')
  }

  /** `distributeMines` over the unprotected range of a shaped pattern
      that holds no mine yet. */
  function AddMines(p: seq<Block>, count: int, g: Rng): (r: (seq<Block>, Rng))
    requires Shaped(p, |p|) && Count(p, Mine) == 0
    requires count > 0 ==> SafeZoneStart < SafeZoneEnd(|p|)
    ensures Shaped(r.0, |p|)
    ensures Count(r.0, Mine) <= (if count > 0 then count else 0)
    ensures Count(r.0, Lucky) == Count(p, Lucky) && Count(r.0, SpeedUp) == Count(p, SpeedUp)
    ensures Count(r.0, SlowDown) == Count(p, SlowDown) && Count(r.0, Teleport) == Count(p, Teleport)
    ensures MinesSpaced(r.0)
  {
    NoMinesSpaced(p);
    var m := DistributeMines(p, count, SafeZoneStart, SafeZoneEnd(|p|), g);
    ShapedStep(p, m.pattern, Mine, |p|);
    (m.pattern, m.rng)
  }

  /** The cell every grid position holds before the path is laid. */
  function OffPathNode(): Node
  {
    NewNode(-1, Empty)
  }

  /** The kind of cell at path position `p`: start first, destination
      last, the pattern in between. */
  function RoleAt(pattern: seq<Block>, pathLength: nat, p: int): Block
  {
    if p == 0 then Start
    else if p == pathLength - 1 then Destination
    else if 0 <= p < |pattern| then pattern[p]
    else Normal
  }

  /** The grid `getMap` builds from a pattern. */
  function Build(pathLength: nat, pattern: seq<Block>): Grid
  {
    Place(Filled(GridHeight(pathLength), GridWidth, OffPathNode()), 0, pathLength,
          PositionToXY, p => RoleAt(pattern, pathLength, p))
  }

  /** `getMap`: the memoised grid if there is one; otherwise a pattern is
      drawn, the grid is built and kept. */
  function GetMap(m: RandomMap): (r: (Grid, RandomMap))
    ensures r.1.nodes == Some(r.0)
    ensures r.1.playerCount == m.playerCount && r.1.pathLength == m.pathLength
    ensures m.nodes.Some? ==> r.0 == m.nodes.value && r.1 == m
  {
    match m.nodes
    case Some(grid) => (grid, m)
    case None =>
      var (pattern, g') := GenerateBlockPattern(m.pathLength, m.rng);
      var grid := Build(m.pathLength, pattern);
      (grid, m.(rng := g', nodes := Some(grid)))
  }

  /** Later calls return the grid the first call built, and change nothing
      more. */
  lemma GetMapMemoised(m: RandomMap)
    ensures GetMap(GetMap(m).1) == GetMap(m)
  {
  }

  /** The grid is `GridHeight` rows of 13; the cell at `positionToXY(p)`
      holds path position `p` with its role; every other cell is an empty
      cell at position -1. */
  lemma {:induction false} BuildSpec(pathLength: nat, pattern: seq<Block>)
    ensures Rect(Build(pathLength, pattern), GridHeight(pathLength), GridWidth)
    ensures forall p :: 0 <= p < pathLength ==>
      var (x, y) := PositionToXY(p);
      InGrid(Build(pathLength, pattern), x, y)
      && Build(pathLength, pattern)[y][x] == NewNode(p, RoleAt(pattern, pathLength, p))
    ensures forall y, x ::
      0 <= y < GridHeight(pathLength) && 0 <= x < GridWidth && PathIndex(x, y) >= pathLength
      ==> Build(pathLength, pattern)[y][x] == OffPathNode()
  {
    var h := GridHeight(pathLength);
    var g := Filled(h, GridWidth, OffPathNode());
    var role := p => RoleAt(pattern, pathLength, p);
    forall p | 0 <= p < pathLength
      ensures InGrid(g, PositionToXY(p).0, PositionToXY(p).1)
    {
      XYSpec(p);
      GridHeightSpec(pathLength);
    }
    assert Injective(g, 0, pathLength, PositionToXY) by {
      forall p, q | 0 <= p < pathLength && 0 <= q < pathLength && p != q
        ensures PositionToXY(p) != PositionToXY(q)
      {
        XYInjective(p, q);
      }
    }
    PlaceHits(g, 0, pathLength, PositionToXY, role);
    PlaceMisses(g, 0, pathLength, PositionToXY, role);
    forall y, x | 0 <= y < h && 0 <= x < GridWidth && PathIndex(x, y) >= pathLength
      ensures Build(pathLength, pattern)[y][x] == OffPathNode()
    {
      forall p | 0 <= p < pathLength ensures PositionToXY(p) != (x, y) {
        XYSpec(p);
      }
    }
  }

  /** With a shaped pattern, the start and destination sit at both ends of
      the path and no path cell is an empty one. */
  lemma RoleSpec(pattern: seq<Block>, pathLength: nat)
    requires Shaped(pattern, pathLength) && pathLength >= 2
    ensures RoleAt(pattern, pathLength, 0) == Start
    ensures RoleAt(pattern, pathLength, pathLength - 1) == Destination
    ensures forall p :: 0 < p < pathLength - 1 ==> RoleAt(pattern, pathLength, p) == pattern[p]
    ensures forall p :: 0 <= p < pathLength ==> RoleAt(pattern, pathLength, p) != Empty
  {
    forall p | 0 <= p < pathLength ensures RoleAt(pattern, pathLength, p) != Empty {
      if 0 < p < pathLength - 1 {
        assert PatternKind(pattern[p]);
      }
    }
  }

  /** Every player starts on cell 0. */
  function StartPosition(m: RandomMap, playerIndex: int): (r: int)
    ensures RoleAt([], m.pathLength, r) == Start
  {
    0
  }

  /** Every player's destination is the last cell of the path. */
  function EndPosition(m: RandomMap, playerIndex: int): (r: int)
    ensures r == m.pathLength - 1
    ensures m.pathLength >= 2 ==> RoleAt([], m.pathLength, r) == Destination
  {
    m.pathLength - 1
  }
}
