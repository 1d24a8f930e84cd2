/** Rectangular grids of cells, addressed `grid[y][x]`, and the placement
    loop both maps use: walk the path positions in order and put a cell for
    each one at the coordinates the map assigns it. */
module Grids {
  import opened Blocks

  type Grid = seq<seq<Node>>

  /** `g` has `h` rows of `w` cells each. */
  predicate Rect(g: Grid, h: nat, w: nat)
  {
    |g| == h && forall y :: 0 <= y < h ==> |g[y]| == w
  }

  predicate InGrid(g: Grid, x: int, y: int)
  {
    0 <= y < |g| && 0 <= x < |g[y]|
  }

  /** A `h` by `w` grid with every cell equal to `n`. */
  function Filled(h: nat, w: nat, n: Node): (g: Grid)
    ensures Rect(g, h, w)
    ensures forall y, x :: 0 <= y < h && 0 <= x < w ==> g[y][x] == n
  {
    seq(h, y requires 0 <= y < h => seq(w, x requires 0 <= x < w => n))
  }

  /** `grid[y][x] = n`: that cell is replaced and every other one kept. */
  function SetCell(g: Grid, x: int, y: int, n: Node): (r: Grid)
    requires InGrid(g, x, y)
    ensures |r| == |g| && forall j :: 0 <= j < |g| ==> |r[j]| == |g[j]|
    ensures r[y][x] == n
    ensures forall j, i :: 0 <= j < |g| && 0 <= i < |g[j]| && (j != y || i != x) ==>
      r[j][i] == g[j][i]
  {
    g[y := g[y][x := n]]
  }

  /** The positions `lo .. hi-1` in increasing order. */
  function Span(lo: int, hi: int): (s: seq<int>)
    ensures |s| == if hi > lo then hi - lo else 0
    ensures forall k :: 0 <= k < |s| ==> s[k] == lo + k
  {
    if hi <= lo then [] else seq(hi - lo, k => lo + k)
  }

  /** The placement loop over the positions `ps` in order: position `p`
      gets the cell `Node(p, role(p), 0)` at `xy(p)`, and a position whose
      coordinates fall outside the grid is skipped. */
  function PlaceAll(g: Grid, ps: seq<int>, xy: int -> (int, int), role: int -> Block): (r: Grid)
    ensures |r| == |g| && forall j :: 0 <= j < |g| ==> |r[j]| == |g[j]|
    decreases |ps|
  {
    if |ps| == 0 then g
    else
      var g' := PlaceAll(g, ps[..|ps| - 1], xy, role);
      var p := ps[|ps| - 1];
      var (x, y) := xy(p);
      if InGrid(g', x, y) then SetCell(g', x, y, NewNode(p, role(p))) else g'
  }

  /** Positions `lo .. hi-1` placed in increasing order. */
  function Place(g: Grid, lo: int, hi: int, xy: int -> (int, int), role: int -> Block): (r: Grid)
    ensures |r| == |g| && forall j :: 0 <= j < |g| ==> |r[j]| == |g[j]|
  {
    PlaceAll(g, Span(lo, hi), xy, role)
  }

  /** No two positions of `[lo, hi)` that land inside the grid share a cell. */
  predicate Injective(g: Grid, lo: int, hi: int, xy: int -> (int, int))
  {
    forall p, q :: lo <= p < hi && lo <= q < hi && p != q && InGrid(g, xy(p).0, xy(p).1) ==>
      xy(p) != xy(q)
  }

  /** No later position overwrites the cell of an earlier one that lands
      inside the grid. */
  predicate NoOverwrite(g: Grid, ps: seq<int>, xy: int -> (int, int))
  {
    forall k, l :: 0 <= k < l < |ps| && InGrid(g, xy(ps[k]).0, xy(ps[k]).1) ==> xy(ps[k]) != xy(ps[l])
  }

  lemma {:induction false} PlaceAllHits(g: Grid, ps: seq<int>, xy: int -> (int, int), role: int -> Block)
    requires NoOverwrite(g, ps, xy)
    ensures var r := PlaceAll(g, ps, xy, role);
      forall k :: 0 <= k < |ps| && InGrid(g, xy(ps[k]).0, xy(ps[k]).1) ==>
        r[xy(ps[k]).1][xy(ps[k]).0] == NewNode(ps[k], role(ps[k]))
    decreases |ps|
  {
    if |ps| > 0 {
      var front := ps[..|ps| - 1];
      assert forall k :: 0 <= k < |front| ==> front[k] == ps[k];
      assert NoOverwrite(g, front, xy);
      PlaceAllHits(g, front, xy, role);
    }
  }

  lemma {:induction false} PlaceAllMisses(g: Grid, ps: seq<int>, xy: int -> (int, int), role: int -> Block)
    ensures var r := PlaceAll(g, ps, xy, role);
      forall y, x :: InGrid(g, x, y) && (forall k :: 0 <= k < |ps| ==> xy(ps[k]) != (x, y)) ==>
        r[y][x] == g[y][x]
    decreases |ps|
  {
    if |ps| > 0 {
      var front := ps[..|ps| - 1];
      PlaceAllMisses(g, front, xy, role);
      forall y, x | InGrid(g, x, y) && (forall k :: 0 <= k < |ps| ==> xy(ps[k]) != (x, y))
        ensures forall k :: 0 <= k < |front| ==> xy(front[k]) != (x, y)
      {
        assert forall k :: 0 <= k < |front| ==> front[k] == ps[k];
      }
    }
  }

  /** Placement puts `p`'s own cell at `xy(p)` for every position that
      lands inside the grid. */
  lemma PlaceHits(g: Grid, lo: int, hi: int, xy: int -> (int, int), role: int -> Block)
    requires Injective(g, lo, hi, xy)
    ensures var r := Place(g, lo, hi, xy, role);
      forall p :: lo <= p < hi && InGrid(g, xy(p).0, xy(p).1) ==>
        r[xy(p).1][xy(p).0] == NewNode(p, role(p))
  {
    var ps := Span(lo, hi);
    PlaceAllHits(g, ps, xy, role);
    forall p | lo <= p < hi && InGrid(g, xy(p).0, xy(p).1)
      ensures Place(g, lo, hi, xy, role)[xy(p).1][xy(p).0] == NewNode(p, role(p))
    {
      assert ps[p - lo] == p;
    }
  }

  /** Placement leaves every cell that no position lands on as it was. */
  lemma PlaceMisses(g: Grid, lo: int, hi: int, xy: int -> (int, int), role: int -> Block)
    ensures var r := Place(g, lo, hi, xy, role);
      forall y, x :: InGrid(g, x, y) && (forall p :: lo <= p < hi ==> xy(p) != (x, y)) ==>
        r[y][x] == g[y][x]
  {
    var ps := Span(lo, hi);
    PlaceAllMisses(g, ps, xy, role);
    forall y, x | InGrid(g, x, y) && (forall p :: lo <= p < hi ==> xy(p) != (x, y))
      ensures forall k :: 0 <= k < |ps| ==> xy(ps[k]) != (x, y)
    {
      assert forall k :: 0 <= k < |ps| ==> ps[k] == lo + k;
    }
  }
}
