/**
 * The level geometry: a floor, a ceiling and one side quad for every side
 * of a wall cell that faces an open cell, emitted cell by cell in row-major
 * order. Vertex positions, colours and texture coordinates are abstracted:
 * a vertex is known only as "corner k of quad q".
 */
module Geometry {
  import opened Math
  import opened Rendering
  import opened Levels

  /** The two horizontal directions the builder steps in. */
  const Forward := Vec2i(0, -1)
  const Rightward := Vec2i(1, 0)

  /** The sides of a cell, in the order the builder tests them. */
  datatype Side = Front | Back | Right | Left

  const Sides: set<Side> := {Front, Back, Right, Left}

  /** The cell across side `s` of cell `p`. */
  function Neighbour(p: Vec2i, s: Side): Vec2i {
    match s
    case Front => Add(p, Forward)
    case Back => Sub(p, Forward)
    case Right => Add(p, Rightward)
    case Left => Sub(p, Rightward)
  }

  /** A quad of the level mesh: the floor, the ceiling, or side `side` of wall cell `cell`. */
  datatype Quad = Floor | Ceiling | Face(cell: Vec2i, side: Side)

  /** A vertex of the level mesh, known only as corner `index` of quad `quad`. */
  datatype Corner = Corner(quad: Quad, index: nat)

  function Corners(q: Quad): seq<Corner> {
    [Corner(q, 0), Corner(q, 1), Corner(q, 2), Corner(q, 3)]
  }

  /** Side `s` of cell `p` is visible: `p` is a wall and the cell across `s` is open. */
  predicate Exposed(layout: Layout, p: Vec2i, s: Side) {
    WallAt(layout, p) && !WallAt(layout, Neighbour(p, s))
  }

  /** Every visible wall side of the level, in no particular order. */
  function ExposedFaces(layout: Layout): set<Quad> {
    set x: int, y: int, s: Side
      | 0 <= x < LevelSize && 0 <= y < LevelSize && s in Sides && Exposed(layout, Vec2i(x, y), s)
      :: Face(Vec2i(x, y), s)
  }

  lemma ExposedFacesMembers(layout: Layout)
    ensures forall q :: q in ExposedFaces(layout) <==> q.Face? && Exposed(layout, q.cell, q.side)
  {
    forall q: Quad | q.Face? && Exposed(layout, q.cell, q.side)
      ensures q in ExposedFaces(layout)
    {
      var x, y, s := q.cell.x, q.cell.y, q.side;
      assert s in Sides by {
        match s
        case Front =>
        case Back =>
        case Right =>
        case Left =>
      }
      assert q == Face(Vec2i(x, y), s);
    }
  }

  predicate NoDup(qs: seq<Quad>) {
    forall i, j :: 0 <= i < j < |qs| ==> qs[i] != qs[j]
  }

  lemma NoDupAppend(a: seq<Quad>, b: seq<Quad>)
    requires NoDup(a) && NoDup(b)
    requires forall q :: q in a ==> q !in b
    ensures NoDup(a + b)
  {
    forall i, j | 0 <= i < j < |a + b|
      ensures (a + b)[i] != (a + b)[j]
    {
      if i < |a| && |a| <= j {
        assert (a + b)[i] in a && (a + b)[j] in b;
      }
    }
  }

  /** A sequence without repetitions has as many distinct elements as entries. */
  lemma {:induction false} NoDupCard(qs: seq<Quad>)
    requires NoDup(qs)
    ensures |set q | q in qs| == |qs|
  {
    if qs != [] {
      var init, last := qs[..|qs| - 1], qs[|qs| - 1];
      assert qs == init + [last];
      NoDupCard(init);
      assert last !in init;
      assert (set q | q in qs) == (set q | q in init) + {last};
    }
  }

  /*
   * Row-major emission. `emit(c)` is what cell `c` contributes; `Row` and
   * `Rows` concatenate it over the cells in the order the builder visits
   * them (y outer, x inner).
   */

  /** The concatenation of `emit(c)` over cells (0, y) .. (n-1, y). */
  function Row(emit: Vec2i -> seq<Quad>, y: int, n: nat): seq<Quad> {
    if n == 0 then [] else Row(emit, y, n - 1) + emit(Vec2i(n - 1, y))
  }

  /** The concatenation of rows 0 .. m-1, each one level wide. */
  function Rows(emit: Vec2i -> seq<Quad>, m: nat): seq<Quad> {
    if m == 0 then [] else Rows(emit, m - 1) + Row(emit, m - 1, LevelSize)
  }

  /** Every quad a cell contributes is a side of that cell. */
  ghost predicate OwnSides(emit: Vec2i -> seq<Quad>) {
    forall c, q :: q in emit(c) ==> q.Face? && q.cell == c
  }

  /** A row holds exactly the quads its first `n` cells contribute. */
  lemma {:induction false} RowMember(emit: Vec2i -> seq<Quad>, y: int, n: nat, q: Quad)
    requires OwnSides(emit)
    ensures q in Row(emit, y, n) <==> q.Face? && q.cell.y == y && 0 <= q.cell.x < n && q in emit(q.cell)
  {
    if n > 0 {
      RowMember(emit, y, n - 1, q);
    }
  }

  /** The rows hold exactly the quads the cells of their first `m` rows contribute. */
  lemma {:induction false} RowsMember(emit: Vec2i -> seq<Quad>, m: nat, q: Quad)
    requires OwnSides(emit)
    ensures q in Rows(emit, m) <==>
      q.Face? && 0 <= q.cell.y < m && 0 <= q.cell.x < LevelSize && q in emit(q.cell)
  {
    if m > 0 {
      RowsMember(emit, m - 1, q);
      RowMember(emit, m - 1, LevelSize, q);
    }
  }

  /** When no cell repeats a quad, no row does either. */
  lemma {:induction false} RowDistinct(emit: Vec2i -> seq<Quad>, y: int, n: nat)
    requires OwnSides(emit) && forall c :: NoDup(emit(c))
    ensures NoDup(Row(emit, y, n))
  {
    if n > 0 {
      var init, last := Row(emit, y, n - 1), emit(Vec2i(n - 1, y));
      RowDistinct(emit, y, n - 1);
      forall q | q in init
        ensures q !in last
      {
        RowMember(emit, y, n - 1, q);
      }
      NoDupAppend(init, last);
    }
  }

  /** The cells of row `m` are visited after every cell of the rows above it. */
  lemma RowsBeforeRow(emit: Vec2i -> seq<Quad>, m: nat, q: Quad, r: Quad)
    requires OwnSides(emit)
    requires q in Rows(emit, m) && r in Row(emit, m, LevelSize)
    ensures q.Face? && r.Face? && FlatIndex(q.cell) < FlatIndex(r.cell)
  {
    RowsMember(emit, m, q);
    RowMember(emit, m, LevelSize, r);
  }

  /** When no cell repeats a quad, the rows do not either. */
  lemma {:induction false} RowsDistinct(emit: Vec2i -> seq<Quad>, m: nat)
    requires OwnSides(emit) && forall c :: NoDup(emit(c))
    ensures NoDup(Rows(emit, m))
  {
    if m > 0 {
      var init, last := Rows(emit, m - 1), Row(emit, m - 1, LevelSize);
      RowsDistinct(emit, m - 1);
      RowDistinct(emit, m - 1, LevelSize);
      forall q | q in init
        ensures q !in last
      {
        if q in last {
          RowsBeforeRow(emit, m - 1, q, q);
        }
      }
      NoDupAppend(init, last);
    }
  }

  /** The wall sides of `qs` appear in the order the builder visits their cells. */
  ghost predicate RowMajor(qs: seq<Quad>) {
    forall i, j :: 0 <= i < j < |qs| && qs[i].Face? && qs[j].Face? ==> FlatIndex(qs[i].cell) <= FlatIndex(qs[j].cell)
  }

  lemma RowMajorAppend(a: seq<Quad>, b: seq<Quad>)
    requires RowMajor(a) && RowMajor(b)
    requires forall q, r :: q in a && r in b && q.Face? && r.Face? ==> FlatIndex(q.cell) <= FlatIndex(r.cell)
    ensures RowMajor(a + b)
  {
    forall i, j | 0 <= i < j < |a + b| && (a + b)[i].Face? && (a + b)[j].Face?
      ensures FlatIndex((a + b)[i].cell) <= FlatIndex((a + b)[j].cell)
    {
      if i < |a| && |a| <= j {
        assert (a + b)[i] in a && (a + b)[j] in b;
      }
    }
  }

  /** A row lists its quads cell by cell, left to right. */
  lemma {:induction false} RowOrdered(emit: Vec2i -> seq<Quad>, y: int, n: nat)
    requires OwnSides(emit)
    ensures RowMajor(Row(emit, y, n))
  {
    if n > 0 {
      var init, last := Row(emit, y, n - 1), emit(Vec2i(n - 1, y));
      RowOrdered(emit, y, n - 1);
      forall q, r | q in init && r in last && q.Face? && r.Face?
        ensures FlatIndex(q.cell) <= FlatIndex(r.cell)
      {
        RowMember(emit, y, n - 1, q);
      }
      RowMajorAppend(init, last);
    }
  }

  /** The rows list their quads row by row, each row left to right. */
  lemma {:induction false} RowsOrdered(emit: Vec2i -> seq<Quad>, m: nat)
    requires OwnSides(emit)
    ensures RowMajor(Rows(emit, m))
  {
    if m > 0 {
      var init, last := Rows(emit, m - 1), Row(emit, m - 1, LevelSize);
      RowsOrdered(emit, m - 1);
      RowOrdered(emit, m - 1, LevelSize);
      forall q, r | q in init && r in last && q.Face? && r.Face?
        ensures FlatIndex(q.cell) <= FlatIndex(r.cell)
      {
        RowsBeforeRow(emit, m - 1, q, r);
      }
      RowMajorAppend(init, last);
    }
  }

  /** The quad the builder emits for side `s` of wall cell `p`, if any. */
  function SideQuads(layout: Layout, p: Vec2i, s: Side): seq<Quad> {
    if !WallAt(layout, Neighbour(p, s)) then [Face(p, s)] else []
  }

  /** The quads the builder emits for cell `p`: none for an open cell. */
  function CellQuads(layout: Layout, p: Vec2i): seq<Quad> {
    if !WallAt(layout, p) then []
    else
      SideQuads(layout, p, Front) + SideQuads(layout, p, Back) +
      SideQuads(layout, p, Right) + SideQuads(layout, p, Left)
  }

  function CellEmitter(layout: Layout): Vec2i -> seq<Quad> {
    p => CellQuads(layout, p)
  }

  /** A cell contributes each of its exposed sides once, and nothing else. */
  lemma CellQuadsMembers(layout: Layout, p: Vec2i)
    ensures forall q :: q in CellQuads(layout, p) <==> q.Face? && q.cell == p && Exposed(layout, p, q.side)
  {
    if WallAt(layout, p) {
      var f, b := SideQuads(layout, p, Front), SideQuads(layout, p, Back);
      var r, l := SideQuads(layout, p, Right), SideQuads(layout, p, Left);
      assert CellQuads(layout, p) == f + b + r + l;
      forall q: Quad
        ensures q in f + b + r + l <==> q.Face? && q.cell == p && Exposed(layout, p, q.side)
      {
        if q.Face? && q.cell == p {
          match q.side
          case Front =>
          case Back =>
          case Right =>
          case Left =>
        }
      }
    }
  }

  /** A cell contributes each side at most once, so at most four quads. */
  lemma CellQuadsDistinct(layout: Layout, p: Vec2i)
    ensures NoDup(CellQuads(layout, p)) && |CellQuads(layout, p)| <= 4
  {
    if WallAt(layout, p) {
      var f, b := SideQuads(layout, p, Front), SideQuads(layout, p, Back);
      var r, l := SideQuads(layout, p, Right), SideQuads(layout, p, Left);
      assert CellQuads(layout, p) == f + b + r + l;
      NoDupAppend(f, b);
      NoDupAppend(f + b, r);
      NoDupAppend(f + b + r, l);
    }
  }

  /** The quads of the level mesh in emission order: floor, ceiling, then the wall sides row by row. */
  function LevelQuads(layout: Layout): seq<Quad> {
    [Floor, Ceiling] + Rows(CellEmitter(layout), LevelSize)
  }

  /** A row of cells that contribute at most four quads each holds at most 4n quads. */
  lemma {:induction false} RowLength(emit: Vec2i -> seq<Quad>, y: int, n: nat)
    requires forall c :: |emit(c)| <= 4
    ensures |Row(emit, y, n)| <= 4 * n
  {
    if n > 0 {
      RowLength(emit, y, n - 1);
    }
  }

  lemma {:induction false} RowsLength(emit: Vec2i -> seq<Quad>, m: nat)
    requires forall c :: |emit(c)| <= 4
    ensures |Rows(emit, m)| <= 128 * m
  {
    if m > 0 {
      RowsLength(emit, m - 1);
      RowLength(emit, m - 1, LevelSize);
    }
  }

  /** The grid lists exactly the quads its cells contribute. */
  lemma GridMembers(emit: Vec2i -> seq<Quad>, contributed: set<Quad>)
    requires OwnSides(emit)
    requires forall q :: q in contributed <==> q.Face? && InBounds(q.cell) && q in emit(q.cell)
    ensures forall q :: q in Rows(emit, LevelSize) <==> q in contributed
  {
    var grid := Rows(emit, LevelSize);
    forall q
      ensures q in grid <==> q in contributed
    {
      RowsMember(emit, LevelSize, q);
      assert q in contributed <==> q.Face? && InBounds(q.cell) && q in emit(q.cell);
    }
  }

  /** A repetition-free listing of a set is as long as the set is large. */
  lemma ListingCard(qs: seq<Quad>, listed: set<Quad>)
    requires NoDup(qs)
    requires forall q :: q in qs <==> q in listed
    ensures |qs| == |listed|
  {
    assert (set q | q in qs) == listed;
    NoDupCard(qs);
  }

  /**
   * Whatever the cells contribute, when each cell contributes only its own
   * sides, at most four and none twice, the whole grid lists every
   * contributed quad exactly once.
   */
  lemma GridExact(emit: Vec2i -> seq<Quad>, contributed: set<Quad>)
    requires OwnSides(emit)
    requires forall c :: NoDup(emit(c)) && |emit(c)| <= 4
    requires forall q :: q in contributed <==> q.Face? && InBounds(q.cell) && q in emit(q.cell)
    ensures forall q :: q in Rows(emit, LevelSize) <==> q in contributed
    ensures NoDup(Rows(emit, LevelSize))
    ensures |Rows(emit, LevelSize)| == |contributed| <= 4 * CellCount
  {
    GridMembers(emit, contributed);
    RowsDistinct(emit, LevelSize);
    ListingCard(Rows(emit, LevelSize), contributed);
    RowsLength(emit, LevelSize);
  }

  /** The cell emitter contributes exactly the exposed faces, each once. */
  lemma CellEmitterExact(layout: Layout)
    ensures OwnSides(CellEmitter(layout))
    ensures forall c :: NoDup(CellEmitter(layout)(c)) && |CellEmitter(layout)(c)| <= 4
    ensures forall q :: q in ExposedFaces(layout) <==>
      q.Face? && InBounds(q.cell) && q in CellEmitter(layout)(q.cell)
  {
    forall c
      ensures NoDup(CellEmitter(layout)(c)) && |CellEmitter(layout)(c)| <= 4
      ensures forall q :: q in CellEmitter(layout)(c) ==> q.Face? && q.cell == c
    {
      CellQuadsMembers(layout, c);
      CellQuadsDistinct(layout, c);
    }
    ExposedFacesMembers(layout);
    forall q: Quad | q.Face?
      ensures q in ExposedFaces(layout) <==> InBounds(q.cell) && q in CellEmitter(layout)(q.cell)
    {
      CellQuadsMembers(layout, q.cell);
    }
  }

  /** Putting the floor and the ceiling in front of a listing of wall sides repeats nothing. */
  lemma FloorAndCeilingFirst(sides: seq<Quad>, faces: set<Quad>)
    requires forall q :: q in sides <==> q in faces
    requires forall q :: q in faces ==> q.Face?
    requires NoDup(sides) && |sides| == |faces|
    ensures ([Floor, Ceiling] + sides)[..2] == [Floor, Ceiling]
    ensures ([Floor, Ceiling] + sides)[2..] == sides
    ensures NoDup([Floor, Ceiling] + sides)
    ensures |[Floor, Ceiling] + sides| == 2 + |faces|
  {
    forall q | q in [Floor, Ceiling]
      ensures q !in sides
    {
      assert !q.Face?;
    }
    NoDupAppend([Floor, Ceiling], sides);
  }

  /**
   * The level mesh is the floor and the ceiling followed by every exposed
   * wall side exactly once; open cells contribute nothing.
   */
  lemma LevelQuadsExact(layout: Layout)
    ensures LevelQuads(layout)[..2] == [Floor, Ceiling]
    ensures forall q :: q in LevelQuads(layout)[2..] <==> q in ExposedFaces(layout)
    ensures NoDup(LevelQuads(layout))
    ensures |LevelQuads(layout)| == 2 + |ExposedFaces(layout)| <= 2 + 4 * CellCount
  {
    var faces := ExposedFaces(layout);
    CellEmitterExact(layout);
    GridExact(CellEmitter(layout), faces);
    ExposedFacesMembers(layout);
    FloorAndCeilingFirst(Rows(CellEmitter(layout), LevelSize), faces);
  }

  /** The floor and the ceiling take no part in the visiting order. */
  lemma FloorAndCeilingUnordered(sides: seq<Quad>)
    requires RowMajor(sides)
    ensures RowMajor([Floor, Ceiling] + sides)
  {
    RowMajorAppend([Floor, Ceiling], sides);
  }

  /** The wall sides of the level mesh follow the builder's row-major visit: y outer, x inner. */
  lemma LevelQuadsRowMajor(layout: Layout)
    ensures RowMajor(LevelQuads(layout))
  {
    CellEmitterExact(layout);
    RowsOrdered(CellEmitter(layout), LevelSize);
    FloorAndCeilingUnordered(Rows(CellEmitter(layout), LevelSize));
  }

  lemma LevelQuadsCount(layout: Layout)
    ensures |LevelQuads(layout)| == 2 + |ExposedFaces(layout)| <= 2 + 4 * CellCount
  {
    LevelQuadsExact(layout);
  }

  /** The mesh vertices for a sequence of quads: six per quad, in order. */
  function Triangles(qs: seq<Quad>): (r: seq<Corner>)
    ensures |r| == 6 * |qs|
  {
    if qs == [] then [] else Triangles(qs[..|qs| - 1]) + Triangulate(Corners(qs[|qs| - 1]))
  }

  /** Up to 4098 quads, the vertex count survives the cast to 32 bits. */
  lemma TrianglesCountFits(qs: seq<Quad>)
    requires |qs| <= 2 + 4 * CellCount
    ensures |Triangles(qs)| % U32Modulus == 6 * |qs|
  {
  }

  lemma TrianglesSnoc(qs: seq<Quad>, q: Quad)
    ensures Triangles(qs + [q]) == Triangles(qs) + Triangulate(Corners(q))
  {
    assert (qs + [q])[..|qs|] == qs;
  }

  /** Vertices 6k .. 6k+5 are the two triangles of quad k. */
  lemma {:induction false} TrianglesAt(qs: seq<Quad>, k: nat, j: nat)
    requires k < |qs| && j < 6
    ensures Triangles(qs)[6 * k + j] == Triangulate(Corners(qs[k]))[j]
  {
    if k < |qs| - 1 {
      TrianglesAt(qs[..|qs| - 1], k, j);
    }
  }

  /** The quads emitted before the builder starts row `y`. */
  function EmittedRows(layout: Layout, y: nat): seq<Quad> {
    [Floor, Ceiling] + Rows(CellEmitter(layout), y)
  }

  /** The quads emitted before the builder reaches cell (x, y). */
  ghost function Emitted(layout: Layout, y: nat, x: nat): seq<Quad> {
    EmittedRows(layout, y) + Row(CellEmitter(layout), y, x)
  }

  /** Nothing of row `y` is emitted before its first cell. */
  lemma EmittedRowStart(layout: Layout, y: nat)
    ensures Emitted(layout, y, 0) == EmittedRows(layout, y)
  {
  }

  /** Visiting cell (x, y) emits its quads after everything before it. */
  lemma EmittedNextCell(layout: Layout, y: nat, x: nat)
    ensures Emitted(layout, y, x + 1) == Emitted(layout, y, x) + CellQuads(layout, Vec2i(x, y))
  {
    var e := CellEmitter(layout);
    assert Row(e, y, x + 1) == Row(e, y, x) + CellQuads(layout, Vec2i(x, y));
  }

  /** Finishing a row is starting the next one. */
  lemma EmittedNextRow(layout: Layout, y: nat)
    ensures Emitted(layout, y, LevelSize) == EmittedRows(layout, y + 1)
  {
    var e := CellEmitter(layout);
    assert Rows(e, y + 1) == Rows(e, y) + Row(e, y, LevelSize);
  }

  /** Once every row is visited, the whole level mesh is emitted. */
  lemma EmittedEnd(layout: Layout)
    ensures EmittedRows(layout, LevelSize) == LevelQuads(layout)
  {
  }

  /** A wall cell's quads are its four side tests, in order. */
  lemma WallCellSides(emitted: seq<Quad>, layout: Layout, p: Vec2i)
    requires WallAt(layout, p)
    ensures emitted + CellQuads(layout, p) ==
      emitted + SideQuads(layout, p, Front) + SideQuads(layout, p, Back) +
      SideQuads(layout, p, Right) + SideQuads(layout, p, Left)
  {
  }

  /**
   * Emitting one side test: the vertices grow by that quad's two triangles
   * exactly when the cell across the side is open.
   */
  lemma SideStep(emitted: seq<Quad>, layout: Layout, p: Vec2i, s: Side, before: seq<Corner>, after: seq<Corner>)
    requires before == Triangles(emitted)
    requires after == if WallAt(layout, Neighbour(p, s)) then before else before + Triangulate(Corners(Face(p, s)))
    ensures after == Triangles(emitted + SideQuads(layout, p, s))
  {
    if !WallAt(layout, Neighbour(p, s)) {
      TrianglesSnoc(emitted, Face(p, s));
    } else {
      assert emitted + SideQuads(layout, p, s) == emitted;
    }
  }

  /** One side test: a quad for side `s` of `pos` when the cell across it is open. */
  method AddSideIfOpen(level: Level, mb: MeshBuilder<Corner>, pos: Vec2i, s: Side, ghost emitted: seq<Quad>)
    requires level.Valid()
    requires mb.verts == Triangles(emitted)
    modifies mb
    ensures mb.verts == Triangles(emitted + SideQuads(level.Walls(), pos, s))
  {
    ghost var verts := mb.verts;
    if !level.GetWallCell(Neighbour(pos, s)) {
      mb.AddQuad(Corners(Face(pos, s)));
    }
    SideStep(emitted, level.Walls(), pos, s, verts, mb.verts);
  }

  /**
   * One visit of the builder's inner loop: nothing for an open cell, else
   * the side tests of wall cell `pos` in the builder's order (front, back,
   * right, left). `emitted` is what the vertices hold so far.
   */
  method VisitCell(level: Level, mb: MeshBuilder<Corner>, pos: Vec2i, ghost emitted: seq<Quad>)
    requires level.Valid()
    requires mb.verts == Triangles(emitted)
    modifies mb
    ensures mb.verts == Triangles(emitted + CellQuads(level.Walls(), pos))
  {
    ghost var layout := level.Walls();
    if !level.GetWallCell(pos) {
      assert emitted + CellQuads(layout, pos) == emitted;
      return;
    }

    WallCellSides(emitted, layout, pos);
    ghost var done := emitted;

    AddSideIfOpen(level, mb, pos, Front, done);
    done := done + SideQuads(layout, pos, Front);

    AddSideIfOpen(level, mb, pos, Back, done);
    done := done + SideQuads(layout, pos, Back);

    AddSideIfOpen(level, mb, pos, Right, done);
    done := done + SideQuads(layout, pos, Right);

    AddSideIfOpen(level, mb, pos, Left, done);
  }

  /**
   * The builder's inner loop: visits cells (0, y) .. (31, y) in turn and
   * returns what the vertices hold afterwards.
   */
  method VisitRow(level: Level, mb: MeshBuilder<Corner>, y: nat, ghost emitted: seq<Quad>) returns (ghost quads: seq<Quad>)
    requires level.Valid()
    requires emitted == EmittedRows(level.Walls(), y) && mb.verts == Triangles(emitted)
    modifies mb
    ensures quads == EmittedRows(level.Walls(), y + 1) && mb.verts == Triangles(quads)
  {
    ghost var layout := level.Walls();
    EmittedRowStart(layout, y);
    quads := emitted;
    for x := 0 to LevelSize
      invariant quads == Emitted(layout, y, x)
      invariant mb.verts == Triangles(quads)
    {
      var pos := Vec2i(x, y);
      VisitCell(level, mb, pos, quads);
      EmittedNextCell(layout, y, x);
      quads := quads + CellQuads(layout, pos);
    }
    EmittedNextRow(layout, y);
  }

  /** The level mesh's vertex count fits in 32 bits: six per quad, for the floor, the ceiling and each exposed side. */
  lemma LevelMeshSize(layout: Layout)
    ensures |Triangles(LevelQuads(layout))| % U32Modulus == 6 * (2 + |ExposedFaces(layout)|)
  {
    LevelQuadsCount(layout);
    TrianglesCountFits(LevelQuads(layout));
  }

  /**
   * The vertices `update` builds before uploading them: the floor and the
   * ceiling, then the builder's outer loop over rows 0 .. 31.
   */
  method BuildLevelMesh(level: Level) returns (mb: MeshBuilder<Corner>)
    requires level.Valid()
    ensures fresh(mb) && mb.verts == Triangles(LevelQuads(level.Walls()))
  {
    ghost var layout := level.Walls();

    mb := new MeshBuilder<Corner>();

    mb.AddQuad(Corners(Floor));
    mb.AddQuad(Corners(Ceiling));
    TrianglesSnoc([], Floor);
    TrianglesSnoc([Floor], Ceiling);
    ghost var quads := [Floor, Ceiling];

    for y := 0 to LevelSize
      modifies mb
      invariant quads == EmittedRows(layout, y)
      invariant mb.verts == Triangles(quads)
    {
      quads := VisitRow(level, mb, y, quads);
    }

    EmittedEnd(layout);
  }

  class LevelGeometry {
    var mesh: Mesh<Corner>

    /** `vbo` is the handle the GL context hands out for the mesh's buffer. */
    constructor (vbo: nat)
      ensures fresh(mesh) && mesh.vbo == vbo && mesh.count == 0 && mesh.data == []
    {
      mesh := new Mesh(vbo);
    }

    /**
     * Rebuilds the level mesh: the floor and the ceiling, then, visiting
     * cells row by row, one quad for each side of a wall cell whose
     * neighbour is open (a neighbour off the grid counts as open).
     */
    method Update(level: Level)
      requires level.Valid()
      modifies mesh
      ensures mesh.data == Triangles(LevelQuads(old(level.Walls())))
      ensures mesh.count == 6 * (2 + |ExposedFaces(old(level.Walls()))|)
      ensures mesh.vbo == old(mesh.vbo)
    {
      var mb := BuildLevelMesh(level);
      LevelMeshSize(level.Walls());
      mb.UploadTo(mesh);
    }
  }
}
