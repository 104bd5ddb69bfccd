# wsrs-wire client core in Dafny

This project models three small components of the wsrs-wire game client and
proves their behaviour.

- **Input state** (`client/src/input.rs`): the per-frame input table of the
  client. It holds 256 button slots, each cycling Up → Pressed → Down →
  Released → Up. Key and mouse events write slots. `flag_new_frame` settles
  the one-frame edge states and resets the mouse delta. The mouse position,
  previous position, delta and click origin are integer vectors (`Vec2i`);
  the capture and drag flags are booleans.
  - `Input.InputState` is a class over an `array<ButtonState>` of 256 slots.
  - Its methods are framed field by field, so each one states exactly what
    it changes.
  - `FlagNewFrame` is a loop over the array, proved against the specification
    function `NewFrame`.
- **Level wall grid** (`client/src/level.rs`, `Level`): a 32 × 32 grid of wall
  flags, stored flat in 1024 slots at index `x + 32*y`. Reads off the grid
  answer "open" and writes off the grid are ignored.
  - `Levels.Level` keeps the `array<bool>`.
  - `WallAt` and `WithWall` are the value-level reading and update of a
    layout snapshot.
- **Level geometry** (`LevelGeometry::update` in `client/src/level.rs`):
  rebuilds the level mesh.
  - It emits the floor, then the ceiling.
  - It then visits cells row by row (y outer, x inner). For each wall cell it
    tests the front (0,-1), back (0,1), right (1,0) and left (-1,0)
    neighbours in that order, and emits one side quad per open neighbour.
  - A neighbour off the grid counts as open.
  - Vertices are abstracted: a vertex is `Corner(quad, k)`, corner k of a
    `Floor`, `Ceiling` or `Face(cell, side)` quad. The float positions,
    colours and texture coordinates are not modelled.
  - `Geometry.LevelGeometry.Update` keeps the nested loops (as the helper
    methods `BuildLevelMesh`, `VisitRow`, `VisitCell` and `AddSideIfOpen`).
    It is proved to upload exactly `Triangles(LevelQuads(layout))`.
  - `LevelQuads` is proved to be the floor, the ceiling and every exposed
    wall side exactly once, in row-major order.
- **Mesh builder** (`client/src/rendering/mesh_builder.rs`): an append-only
  vertex buffer.
  - `add_quad` pushes a quad's two triangles (0, 1, 2) and (0, 2, 3).
  - `upload_to` sets the mesh's vertex count, truncated to `u32`, and hands
    over the vertices.
  - Vertices are a type parameter; the builder never looks inside one.

Modules: `Math` (`Vec2i`), `Input`, `Levels`, `Rendering` and `Geometry`.
`Geometry` is the update half of `level.rs`, and it is the only module that
combines the level with the mesh builder.

## Model

| member | source | states |
|---|---|---|
| Input.SlotOf | client/src/input.rs:73-86 | every slot is below 256 and `Ascii(ch)` uses slot `ch`; the body maps LeftMouse, Backspace, Escape, Shift, Enter and Tab to slots 0 to 5 |
| Input.SlotsDistinct | client/src/input.rs:88-100 | two buttons share a slot exactly when they are the same button or a character with code 0 to 5 meets the named button on that slot (`Aliases`), in both directions |
| Input.Advance | client/src/input.rs:59-64 | one slot's end-of-frame step always lands on Up or Down and keeps whether the button is held |
| Input.NewFrame | client/src/input.rs:58-65 | the table after a frame has as many slots as before |
| Input.NewFrameAt | client/src/input.rs:58-65 | slot i of the table after a frame is the `Advance` step of slot i before it |
| Input.NewFrameSettles | client/src/input.rs:58-65 | after a frame no slot is Pressed or Released, and each slot is held exactly when it was before |
| Input.NewFrameIdempotent | client/src/input.rs:58-65 | ending a frame twice leaves the table as ending it once |
| Input.EdgeLastsOneFrame | client/src/input.rs:58-65 | a Pressed slot becomes Down and a Released slot becomes Up at the next frame, so a press is reported for exactly one frame |
| Input.InputState.constructor | client/src/input.rs:39-55 | all 256 slots Up, every vector zero, not captured, not dragging, touch disabled |
| Input.InputState.FlagNewFrame | client/src/input.rs:57-69 | the button table becomes `NewFrame` of the old one, the previous mouse position catches up with the current one, the delta is zero, nothing else changes |
| Input.InputState.IsButtonDown | client/src/input.rs:103-109 | a button is down exactly when its slot is neither Up nor Released |
| Input.InputState.IsButtonPressed | client/src/input.rs:103-113 | a button reported as pressed is also reported as down |
| Input.InputState.OnCaptureStateChange | client/src/input.rs:117-119 | sets the capture flag and nothing else, so `IsMouseCaptured` then answers `active` |
| Input.InputState.OnMouseDown | client/src/input.rs:121-128 | any button but 0 changes nothing; button 0 sets only the left-mouse slot to Pressed and records the click origin |
| Input.InputState.OnMouseUp | client/src/input.rs:130-137 | any button but 0 changes nothing; button 0 sets only the left-mouse slot to Released and clears dragging, so the button is no longer down |
| Input.InputState.OnMouseMove | client/src/input.rs:139-149 | captured: the delta accumulates (dx, dy) and the position is unchanged; otherwise the position becomes (x, y) and the delta is measured from the previous frame's position |
| Input.InputState.OnKeyDown | client/src/input.rs:151-153 | only the button's slot changes, to Pressed; the button then reads as pressed and down |
| Input.InputState.OnKeyUp | client/src/input.rs:155-157 | only the button's slot changes, to Released; the button then reads as neither pressed nor down |
| Levels.CellIndex | client/src/level.rs:42-43 | the flat index of an in-bounds cell lies in 0 .. 1023, so the array access cannot fail |
| Levels.CellIndexRoundTrip | client/src/level.rs:35-36 | the flat index of a cell decodes back to that cell |
| Levels.CellAtRoundTrip | client/src/level.rs:9-10 | every slot of the 1024-slot layout is the flat index of exactly the cell decoded from it |
| Levels.CellIndexInjective | client/src/level.rs:35-36 | two in-bounds cells never share a slot, so a write touches one cell only |
| Levels.InBoundsSlot | client/src/level.rs:27-30 | the bounds guard holds exactly when the column is in 0 .. 31 and the flat position `x + 32*y` is one of the 1024 slots |
| Levels.InBoundsIffStored | client/src/level.rs:27-30 | a cell is in bounds exactly when some slot of the layout stores it |
| Levels.WallAt | client/src/level.rs:39-44 | a cell off the grid is never a wall |
| Levels.WithWall | client/src/level.rs:32-37 | a write to a cell off the grid leaves the layout unchanged |
| Levels.WithWallReads | client/src/level.rs:32-44 | after a write to an in-bounds cell that cell reads the new value and every other cell reads as before |
| Levels.WithWallIdempotent | client/src/level.rs:32-37 | writing the same value twice equals writing it once |
| Levels.Level.constructor | client/src/level.rs:13-17 | a new level has no wall cell |
| Levels.Level.GetWallCell | client/src/level.rs:39-44 | reads the layout's `WallAt` of the cell: false off the grid |
| Levels.Level.SetWallCell | client/src/level.rs:32-37 | the new layout is `WithWall` of the old one: an in-bounds cell is set, anything else is ignored |
| Rendering.Triangulate | client/src/rendering/mesh_builder.rs:57-63 | a quad becomes six vertices whose two triangles share corners 0 and 2 |
| Rendering.TriangulateCovers | client/src/rendering/mesh_builder.rs:57-63 | the six vertices are the quad's four corners, each used at least once and nothing else |
| Rendering.TriangulateIgnoresTail | client/src/rendering/mesh_builder.rs:54-64 | input vertices beyond the fourth do not matter |
| Rendering.Mesh.constructor | client/src/rendering/mesh_builder.rs:72-78 | a new mesh has the buffer handle it was given, no vertices to draw and an empty buffer |
| Rendering.MeshBuilder.constructor | client/src/rendering/mesh_builder.rs:33-37 | a new builder holds no vertices |
| Rendering.MeshBuilder.UploadTo | client/src/rendering/mesh_builder.rs:39-48 | the mesh's count is the builder's vertex count modulo 2^32, its buffer holds the builder's vertices, its handle and the builder are unchanged |
| Rendering.MeshBuilder.AddVert | client/src/rendering/mesh_builder.rs:50-52 | appends exactly the vertex and keeps the existing ones |
| Rendering.MeshBuilder.AddQuad | client/src/rendering/mesh_builder.rs:54-64 | needs at least four vertices; appends the quad's two triangles after the unchanged existing vertices |
| Geometry.ExposedFacesMembers | client/src/level.rs:114-150 | a quad is in `ExposedFaces` (an exposed face) exactly when it is a side of a wall cell whose neighbour across that side is open |
| Geometry.CellQuadsMembers | client/src/level.rs:114-150 | `CellQuads`, the concatenation of the four `SideQuads` tests, holds exactly the cell's exposed sides: none for an open cell |
| Geometry.CellQuadsDistinct | client/src/level.rs:116-150 | one cell emits each side at most once, so at most four quads |
| Geometry.CellEmitterExact | client/src/level.rs:109-150 | the per-cell emission emits only the visited cell's sides, never repeats one, and over the grid yields exactly the exposed faces |
| Geometry.RowsMember | client/src/level.rs:109-110 | the first m rows of the visit hold exactly the quads of cells with y < m |
| Geometry.RowsBeforeRow | client/src/level.rs:109-110 | every cell of the earlier rows is visited before any cell of the next row |
| Geometry.RowsDistinct | client/src/level.rs:109-110 | when no cell repeats a quad, the row-by-row visit repeats none either |
| Geometry.RowsOrdered | client/src/level.rs:109-110 | the row-by-row visit lists quads by non-decreasing `x + 32*y` of their cell |
| Geometry.GridExact | client/src/level.rs:109-152 | a visit of all 32 rows lists every contributed quad exactly once, at most 4096 of them |
| Geometry.FloorAndCeilingFirst | client/src/level.rs:92-104 | the floor and the ceiling come first, repeat nothing and add two to the count |
| Geometry.LevelQuadsExact | client/src/level.rs:92-152 | the level mesh `LevelQuads` is the floor, the ceiling, then every exposed wall side exactly once and nothing else; its length is 2 plus the number of exposed faces |
| Geometry.LevelQuadsRowMajor | client/src/level.rs:109-152 | the wall sides of the level mesh follow the visit order, y outer and x inner |
| Geometry.LevelQuadsCount | client/src/level.rs:106-152 | the mesh has 2 + (number of exposed faces) quads, at most 2 + 4 × 1024 |
| Geometry.Triangles | client/src/rendering/mesh_builder.rs:54-64 | a sequence of quads becomes six vertices per quad |
| Geometry.TrianglesAt | client/src/rendering/mesh_builder.rs:57-63 | vertices 6k .. 6k+5 are the two triangles of quad k |
| Geometry.TrianglesCountFits | client/src/rendering/mesh_builder.rs:41 | up to 4098 quads the vertex count survives the cast to `u32` unchanged |
| Geometry.LevelMeshSize | client/src/level.rs:154 | the uploaded count is 6 × (2 + number of exposed faces); the `u32` cast never truncates it |
| Geometry.SideStep | client/src/level.rs:116-123 | one side test grows the vertices by that side's two triangles exactly when the neighbour is open |
| Geometry.AddSideIfOpen | client/src/level.rs:116-150 | a side test of the cell appends the triangles of that side's quad when the neighbour across it is open, else nothing |
| Geometry.VisitCell | client/src/level.rs:111-150 | one inner-loop visit appends the triangles of exactly the cell's exposed sides, in front, back, right, left order |
| Geometry.VisitRow | client/src/level.rs:110-151 | the inner loop over x appends the triangles of row y's quads, left to right |
| Geometry.BuildLevelMesh | client/src/level.rs:88-152 | the builder ends up holding `Triangles(LevelQuads(layout))` for the level's current layout |
| Geometry.LevelGeometry.constructor | client/src/level.rs:78-82 | a new level geometry owns a new, empty mesh on the given buffer handle |
| Geometry.LevelGeometry.Update | client/src/level.rs:84-155 | the mesh's buffer holds the triangles of the floor, the ceiling and every exposed face in visit order; its count is 6 × (2 + exposed faces); its handle is unchanged |

## Left out

- The server (`server/src/main.rs`) and its modules `connections`, `http`, `ws` and `fileserver` are not part of this model. They are threads, sockets, timers and a random token draw, and the modules are not shown.
- `client/src/context.rs`, `player.rs`, `ui/mod.rs`, `resources.rs` and `main.rs` are not part of this model. They are GL rendering, float camera and movement math, foreign calls and resource inclusion.
- `Level::raycast_wall_cells`, `cell_to_world` and `get_tile_scalar`: float stepping and float vectors.
- Vertex positions, colours and texture coordinates in `LevelGeometry::update`: floats. A vertex is modelled by which quad it belongs to and which corner of it it is.
- `Vertex`, `Vertex::get_size` and the byte size `get_size() * count` passed to the GL buffer: the builder's vertex type is a type parameter.
- GL calls (`BindBuffer`, `BufferData`, `pls_make_buffer`, `Mesh::bind`, `Mesh::draw`): foreign calls.
  - The buffer handle is a constructor parameter.
  - The ghost field `Mesh.data` stands for what `BufferData` receives.
- Rendering.MeshBuilder.UploadTo: does not model the `u32` multiplication `get_size() * count`, which would overflow for 2^27 or more vertices of 32 bytes.
- Input.InputState.OnMouseMove: integers are unbounded, so the `i32` overflow of the mouse vectors' sum and difference is not modelled.
- The `touch_enabled` flag is only initialised and never read by the source. The model carries it the same way.
- Rendering.MeshBuilder.AddQuad: requires at least four vertices (`|vs| >= 4`). In the source, fewer is an `assert!` failure, a panic, which the model does not represent.
- Input.SlotOf: requires that an `Ascii` character be below 256 (`HasSlot`). In the source, indexing the 256-slot table with a larger code panics.
- Input.SlotOf: the `_ => buttons[31]` arm of the slot mapping is unreachable, because every variant is matched before it, so it is not modelled.
- Geometry.LevelGeometry.Update: the source's single method body with two nested `for` loops is split into the helper methods `BuildLevelMesh` (outer loop), `VisitRow` (inner loop), `VisitCell` (loop body) and `AddSideIfOpen` (one side test). The order of calls and the branches are the source's.
