/**
 * The level: a 32 x 32 grid of wall cells stored flat, row after row, in
 * an array of 1024 flags. Reads and writes of cells off the grid are
 * guarded: a read answers "open", a write is ignored.
 */
module Levels {
  import opened Math

  /** Cells per side of the square level. */
  const LevelSize := 32

  /** Cells in the level, and slots in its flat layout (32 * 32). */
  const CellCount := 1024

  /** A snapshot of the level's flat wall layout. */
  type Layout = s: seq<bool> | |s| == CellCount witness seq(CellCount, _ => false)

  /** The flat position `x + 32 * y` of a cell: row `y` starts at `32 * y`. */
  function FlatIndex(p: Vec2i): int {
    p.x + p.y * LevelSize
  }

  predicate InBounds(p: Vec2i) {
    0 <= p.x < LevelSize && 0 <= p.y < LevelSize
  }

  /**
   * The bounds guard is exactly what the flat read needs: a cell is in bounds
   * when its column is in range and its flat position is a slot of the layout.
   */
  lemma InBoundsSlot(p: Vec2i)
    ensures InBounds(p) <==> 0 <= p.x < LevelSize && 0 <= FlatIndex(p) < CellCount
  {
  }

  /** The slot of an in-bounds cell in the flat layout. */
  function CellIndex(p: Vec2i): (i: nat)
    requires InBounds(p)
    ensures i < CellCount
  {
    FlatIndex(p)
  }

  /** The cell stored in slot `i`. */
  function CellAt(i: nat): (p: Vec2i)
    requires i < CellCount
    ensures InBounds(p)
  {
    Vec2i(i % LevelSize, i / LevelSize)
  }

  lemma CellIndexRoundTrip(p: Vec2i)
    requires InBounds(p)
    ensures CellAt(CellIndex(p)) == p
  {
  }

  lemma CellAtRoundTrip(i: nat)
    requires i < CellCount
    ensures CellIndex(CellAt(i)) == i
  {
  }

  /** Two in-bounds cells never share a slot. */
  lemma CellIndexInjective(p: Vec2i, q: Vec2i)
    requires InBounds(p) && InBounds(q)
    requires CellIndex(p) == CellIndex(q)
    ensures p == q
  {
    CellIndexRoundTrip(p);
    CellIndexRoundTrip(q);
  }

  /** The in-bounds cells are exactly the cells stored in some slot. */
  lemma InBoundsIffStored(p: Vec2i)
    ensures InBounds(p) <==> exists i: nat :: i < CellCount && CellAt(i) == p
  {
    if InBounds(p) {
      CellIndexRoundTrip(p);
    }
  }

  /** Whether cell `p` of a layout is a wall; cells off the grid are open. */
  function WallAt(layout: Layout, p: Vec2i): (r: bool)
    ensures r ==> InBounds(p)
  {
    if !InBounds(p) then false else layout[CellIndex(p)]
  }

  /** The layout with cell `p` set to `v`; a cell off the grid is ignored. */
  function WithWall(layout: Layout, p: Vec2i, v: bool): (r: Layout)
    ensures !InBounds(p) ==> r == layout
  {
    if !InBounds(p) then layout else layout[CellIndex(p) := v]
  }

  /** After setting an in-bounds cell it reads back the new value; every other cell reads as before. */
  lemma WithWallReads(layout: Layout, p: Vec2i, v: bool, q: Vec2i)
    ensures WallAt(WithWall(layout, p, v), q) == if InBounds(p) && q == p then v else WallAt(layout, q)
  {
    if InBounds(p) && InBounds(q) && q != p && CellIndex(p) == CellIndex(q) {
      CellIndexInjective(p, q);
    }
  }

  /** Setting a cell twice to the same value is setting it once. */
  lemma WithWallIdempotent(layout: Layout, p: Vec2i, v: bool)
    ensures WithWall(WithWall(layout, p, v), p, v) == WithWall(layout, p, v)
  {
  }

  class Level {
    var wallLayout: array<bool>

    ghost predicate Valid()
      reads this`wallLayout
    {
      wallLayout.Length == CellCount
    }

    /** The current layout. */
    ghost function Walls(): Layout
      reads this`wallLayout, wallLayout
      requires Valid()
    {
      wallLayout[..]
    }

    /** A new level has no walls. */
    constructor ()
      ensures Valid() && fresh(wallLayout)
      ensures forall p :: !WallAt(Walls(), p)
    {
      wallLayout := new bool[CellCount](_ => false);
    }

    function GetWallCell(p: Vec2i): (r: bool)
      reads this`wallLayout, wallLayout
      requires Valid()
      ensures r == WallAt(Walls(), p)
    {
      if !InBounds(p) then false else wallLayout[CellIndex(p)]
    }

    method SetWallCell(p: Vec2i, v: bool)
      requires Valid()
      modifies wallLayout
      ensures Walls() == WithWall(old(Walls()), p, v)
    {
      if !InBounds(p) { return; }

      wallLayout[CellIndex(p)] := v;
    }
  }
}
