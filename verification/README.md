# Navigation-mesh debug drawing, modelled in Dafny

This project models the mesh-to-primitive conversion at the core of a small
navigation-mesh viewer written in Rust.

- **Polygon-mesh walker** (`du_debug_draw_poly_mesh`, module `DebugDraw`).
  A polygon mesh stores each polygon as a row of vertex indices padded with
  the sentinel `0xffff`. The walker turns the mesh into three batches of
  drawing calls:
  - area-coloured fan triangles (QUADS, size 1.0);
  - closed boundary loops (LINES, size 2.5);
  - one point per vertex (POINTS, size 3.0).
- **Slope renderer** (`du_debug_draw_tri_mesh_slope`, module `SlopeDraw`).
  It draws a flat triangle list with one normal per triangle. Each face is
  shaded grey from its normal and tinted when it is too steep to walk on.
  Texture coordinates are projected along the two axes that follow the
  normal's dominant axis.
- **OBJ loader** (`load_obj`, `vertex_count`, `face_count`, `triangulate`,
  module `ObjLoader`). It interprets a file line by line:
  - a dummy vertex sits at index 0;
  - "v" lines add vertices;
  - "f" lines add faces, each token read as the unsigned integer before its
    first '/';
  - other lines are ignored;
  - the first bad line aborts the load.

  `triangulate` turns every face into a fan of triangles.
- **egui sink** (`EguiDebugDraw`, module `Viewer`). The sink is a class with
  a current mode and three buffers (segments, points, quads). `begin`,
  `vertex`, `end` and `clear` update them in place. `area_to_col` is the
  sink's palette. `MeshViewerApp::draw_mesh` clears the sink and then draws
  the sample mesh on it.

A drawing sink is modelled by the sequence of calls made on it (`Call`). The
walker's only query of its sink, `area_to_col`, is a function parameter. The
walker also returns the area bytes it looked up. Each renderer is written as
a method with loops (`DrawPolyMesh`, `DrawTriMeshSlope`), proved equal to a
specification function of its input (`PolyMeshTrace`, `SlopeTrace`). The
lemmas then state what that trace contains. The sink replays a trace through
its own methods, and the `Viewer` lemmas state what the buffers hold
afterwards.

Integer widths are explicit:
- `verts.len() as u16` is `|verts| % 0x10000`;
- areas are bytes and polygon indices are `u16`;
- a parsed `usize` is below 2^64.

Floats are modelled as reals.

Facts about the code that the proofs establish:

- **The bit trick is correct.** The axis trick `(1 << ax) & 3` equals
  `(ax + 1) % 3` for all three axes, axis 2 included, since `4 & 3 == 0`
  (`NextAxisIsSuccessor`).
- **The chosen axis is the most aligned one.** The loop picks the component
  of the normal with the largest magnitude, ties going to the lower index
  (`DominantAxisIsLargest`).
- **Only the vertex is skipped.** An out-of-range vertex index skips only
  that one vertex. The rest of the triangle or edge is still drawn
  (`CornerCallsSkip`). For example, a fan triangle with one bad corner
  yields two vertex calls (`FillIgnoresLeadingSlots`).
- **The fan count needs two valid slots.** A polygon with k ≥ 2 valid slots
  gets exactly 3·(k−2) fill calls (`PolygonFill`). The fill loop starts at
  slot 2 without looking at slots 0 and 1, so a row with 0 or 1 valid slots
  is still filled from slot 2 on. For example, the row `[0, 0xffff, 1, 2]`
  with `nvp` 4 over three vertices gives five fill calls rather than none
  (`FillWithOneValidSlot`).
- **The slope renderer can panic.** It indexes out of bounds when `tris` is
  not made of whole triangles, when an index is not a vertex, or when
  `normals` is too short. Its only other special case is returning early on
  empty input. The model states these as the precondition
  `SlopeDraw.WellFormed`.
- **The boundary pass can panic too.** It reads `poly[j + 1]` without a
  length check, so it panics on a polygon that stops short of `nvp` without
  storing the slot after its last valid one. `DebugDraw.WellFormed` excludes
  that case, together with `areas` being shorter than `polys`.

## Model

| member | source | states |
|---|---|---|
| Geometry.SaturatingToUint8 | t1/src/viewer.rs:40-45 | a float cast `as u8` gives the largest byte not above the value, 0 below zero and 255 from 255 up |
| DebugDraw.IndexBound | t1/src/debug_draw.rs:57 | the `u16` vertex-count bound is at most the vertex count, and equal to it below 65536 vertices |
| DebugDraw.FillColor | t1/src/debug_draw.rs:37-43 | the fill colour is the walkable colour for area 63, the null colour for area 0, and `area_to_col(area)` for any other area |
| DebugDraw.FirstStop | t1/src/debug_draw.rs:46-50 | a slot walk breaks at the first slot at or past `nvp`, past the row, or holding the sentinel, and at no slot before it |
| DebugDraw.EdgePos | t1/src/debug_draw.rs:98-100 | boundary and point positions share x and z with the fill position (bmin + v·cs) and lie 0.1 above it |
| DebugDraw.EmitCorners | t1/src/debug_draw.rs:56-65 | the corner loop emits, in order, one vertex per corner whose index is below `verts.len() as u16`, at the cell-to-world position |
| DebugDraw.EmitPolyFill | t1/src/debug_draw.rs:46-66 | the fan loop of one polygon emits the fan triangles of slots 2 up to the first stop |
| DebugDraw.EmitFill | t1/src/debug_draw.rs:33-66 | the fill pass emits every polygon's fan in its area colour, and returns the area bytes passed to `area_to_col` |
| DebugDraw.EmitPolyEdges | t1/src/debug_draw.rs:75-103 | the edge loop of one polygon emits one edge per valid slot, to the next slot or back to slot 0 |
| DebugDraw.EmitBoundary | t1/src/debug_draw.rs:74-104 | the boundary pass emits the edges of every polygon in order |
| DebugDraw.EmitPoints | t1/src/debug_draw.rs:111-116 | the point pass emits one lifted vertex per mesh vertex in the vertex colour |
| DebugDraw.DrawPolyMesh | t1/src/debug_draw.rs:28-118 | the whole walk makes exactly the calls of `PolyMeshTrace` and looks up exactly `Lookups` |
| DebugDraw.TraceShape | t1/src/debug_draw.rs:30-117 | the trace is three batches in order: `Begin(QUADS,1.0)`, `Begin(LINES,2.5)`, `Begin(POINTS,3.0)`, each with vertex calls only before its `End`; the points batch has one call per vertex |
| DebugDraw.CornerCallsSkip | t1/src/debug_draw.rs:56-59 | a corner with an out-of-range index is skipped without a call; every in-range corner gives exactly one call, in order |
| DebugDraw.CornerCallsInRange | t1/src/debug_draw.rs:56-65 | with all corners in range, corner t gives call t |
| DebugDraw.PolyFillColored | t1/src/debug_draw.rs:37-43 | every fill vertex of a polygon is in the walkable colour for area 63, the null colour for area 0, and `area_to_col(area)` otherwise |
| DebugDraw.LookupsAreCustomAreas | t1/src/debug_draw.rs:37-43 | `area_to_col` is never asked about 0 or 63, and is asked about every other area byte of the mesh |
| DebugDraw.FillPassVertices | t1/src/debug_draw.rs:33-66 | the fill pass emits vertex calls only |
| DebugDraw.BoundaryPassColored | t1/src/debug_draw.rs:72-104 | every boundary call is a vertex in `col_boundary` |
| DebugDraw.PointsOnePerVertex | t1/src/debug_draw.rs:111-116 | the point pass has exactly one call per mesh vertex; call i is vertex i, lifted, in `col_vertex` |
| DebugDraw.PointPassColored | t1/src/debug_draw.rs:109-116 | every point call is a vertex in `col_vertex`, one per mesh vertex |
| DebugDraw.FillTrisLength | t1/src/debug_draw.rs:46-66 | with all indices in range, fan slots 2 .. hi-1 give exactly 3·(hi−2) calls |
| DebugDraw.FanTriangleAt | t1/src/debug_draw.rs:53-64 | with all indices in range, call 3(j−2)+c is corner c of the triangle [poly[0], poly[j−1], poly[j]] |
| DebugDraw.FanTriangles | t1/src/debug_draw.rs:46-66 | the fill of slots 2 .. hi-1 is exactly the fan triangles closed by those slots, three calls each, in order |
| DebugDraw.PolygonFill | t1/src/debug_draw.rs:33-66 | a polygon with k ≥ 2 valid slots, all in range, gets exactly 3·(k−2) fill calls forming its fan, in its area colour |
| DebugDraw.LoopNextIsModular | t1/src/debug_draw.rs:82-88 | stepping round a loop of k slots is adding one modulo k |
| DebugDraw.NextSlotWraps | t1/src/debug_draw.rs:82-88 | the edge from valid slot j goes to slot j+1, or to slot 0 after the last valid slot: the edges close one loop |
| DebugDraw.EdgeCallsLength | t1/src/debug_draw.rs:74-104 | with all valid slots in range, every edge gives exactly two calls |
| DebugDraw.EdgeAt | t1/src/debug_draw.rs:82-101 | with all valid slots in range, calls 2j and 2j+1 are the lifted ends poly[j] and poly[(j+1) mod k] in `col_boundary` |
| DebugDraw.EdgeLoop | t1/src/debug_draw.rs:74-104 | the boundary of a polygon with k valid slots is the closed loop of its k edges, in order |
| DebugDraw.FillIgnoresLeadingSlots | t1/src/debug_draw.rs:46-53 | the fill never inspects slots 0 and 1: a row with the sentinel in slot 0 has no boundary but still gets a fill triangle with its bad corner skipped |
| DebugDraw.FillWithOneValidSlot | t1/src/debug_draw.rs:46-66 | a row `[0, 0xffff, 1, 2]` with `nvp` 4 has one valid slot, yet its fill makes five calls: the 3·(k−2) count holds only from k = 2 up |
| SlopeDraw.BaseColorIsGrey | t1/src/debug_draw2.rs:46-52 | the base colour is an opaque grey whose channels scale back to the luminance byte |
| SlopeDraw.SteepIffTinted | t1/src/debug_draw2.rs:54-58 | the face keeps its base colour exactly when `norm.y >= walkable_thr`, and is blended toward the unwalkable tint otherwise |
| SlopeDraw.DominantAxis | t1/src/debug_draw2.rs:66-74 | the selected axis is one of 0, 1, 2 |
| SlopeDraw.DominantAxisIsLargest | t1/src/debug_draw2.rs:66-74 | the selected axis has the largest magnitude, ties going to the lower index |
| SlopeDraw.NextAxisIsSuccessor | t1/src/debug_draw2.rs:76-77 | `(1 << ax) & 3 == (ax + 1) % 3` for ax = 0, 1, 2 |
| SlopeDraw.TextureAxesDistinct | t1/src/debug_draw2.rs:76-77 | the two texture axes differ from each other and from the dominant axis |
| SlopeDraw.TexCoordProjects | t1/src/debug_draw2.rs:92-94 | with a non-zero scale, two points get the same texture coordinates exactly when they agree on the two texture axes: the uv is a projection along the dominant axis |
| SlopeDraw.Lerp | t1/src/debug_draw2.rs:96-98 | `lerp_col` gives its first colour at t = 0 and its second at t = 1 |
| SlopeDraw.LerpBetween | t1/src/debug_draw2.rs:96-98 | for t in [0, 1], every channel of the blend lies between the channels of the two colours |
| SlopeDraw.FaceColor | t1/src/debug_draw2.rs:46-58 | the colour code of the loop body gives the slope colour of the normal |
| SlopeDraw.TextureAxes | t1/src/debug_draw2.rs:66-77 | the axis code of the loop body gives the dominant axis plus one and plus two, modulo 3 |
| SlopeDraw.SlotCallAt | t1/src/debug_draw2.rs:42-85 | corner c of the triangle starting at slot i uses `normals[i]` for its colour and its texture axes |
| SlopeDraw.EmitTriangle | t1/src/debug_draw2.rs:42-85 | the loop body emits the three calls of its triangle, in slot order |
| SlopeDraw.DrawTriMeshSlope | t1/src/debug_draw2.rs:22-90 | the renderer makes exactly the calls of `SlopeTrace` |
| SlopeDraw.SlopeTraceShape | t1/src/debug_draw2.rs:28-89 | an empty mesh (no verts, tris or normals) gives no call at all; otherwise texture on, begin, one textured vertex per slot, end, texture off |
| SlopeDraw.CornerVertex | t1/src/debug_draw2.rs:61-94 | corner c of triangle t is the untransformed vertex `verts[tris[3t+c]]`, coloured by `normals[3t]` (the same for the three corners), with uv = (v[ax]·scale, v[ay]·scale) |
| ObjLoader.MessagesDistinguish | t1/src/obj_loader.rs:51-73 | the four kinds of rejection, and different bad tokens, give different error messages |
| ObjLoader.ObjData.VertexCount | t1/src/obj_loader.rs:132-134 | `vertex_count` is the number of vertices after the dummy one |
| ObjLoader.ObjData.FaceCount | t1/src/obj_loader.rs:137-139 | `face_count` is zero exactly when there are no faces |
| ObjLoader.ApplyCounts | t1/src/obj_loader.rs:49-81 | a "v" line raises `vertex_count` by one and stores its vertex at that index, an "f" line raises `face_count` by one and stores its face last, any other line changes neither count |
| ObjLoader.Tokens | t1/src/obj_loader.rs:46 | `split_whitespace` gives non-empty tokens free of whitespace |
| ObjLoader.NoTokensIffBlank | t1/src/obj_loader.rs:46-48 | a line has no first token exactly when every character of it is whitespace |
| ObjLoader.FirstToken | t1/src/obj_loader.rs:46-48 | the first token is the maximal run of non-whitespace characters that starts after the leading whitespace |
| ObjLoader.BlankHasNoTokens | t1/src/obj_loader.rs:46-48 | a blank line has no first token |
| ObjLoader.ParseUsize | t1/src/obj_loader.rs:71 | a parsed index fits in a 64-bit `usize` |
| ObjLoader.ParseUsizeRoundTrip | t1/src/obj_loader.rs:71 | every `usize` is parsed back from its decimal notation, with or without '+' |
| ObjLoader.BeforeSlash | t1/src/obj_loader.rs:68-70 | the index text is the longest prefix of the token without '/', followed by '/' when shorter |
| ObjLoader.IndicesLength | t1/src/obj_loader.rs:65-76 | a parsed face has one index per token |
| ObjLoader.IndicesAt | t1/src/obj_loader.rs:65-76 | index k of a parsed face is the parse of token k |
| ObjLoader.IndicesContents | t1/src/obj_loader.rs:65-76 | a parsed face holds the indices of its tokens, in order |
| ObjLoader.IndicesError | t1/src/obj_loader.rs:65-78 | a face that fails names its first unparsable token, and every token before it parses |
| ObjLoader.IndicesOk | t1/src/obj_loader.rs:65-78 | a face parses exactly when each of its tokens does |
| ObjLoader.IndicesErrorSuffix | t1/src/obj_loader.rs:65-78 | once a token fails, the tokens after it do not change the error |
| ObjLoader.ReadFace | t1/src/obj_loader.rs:65-78 | the token loop collects the face's indices or stops at the first bad token |
| ObjLoader.ReadLine | t1/src/obj_loader.rs:46-82 | one line is a vertex, a face, ignored or rejected, exactly as `ParseLine` says |
| ObjLoader.ErrorIsFinal | t1/src/obj_loader.rs:44-83 | after a rejected line, the rest of the file does not change the result |
| ObjLoader.LoadObj | t1/src/obj_loader.rs:30-86 | the line loop gives exactly `LoadLines` of the file's lines |
| ObjLoader.LoadContents | t1/src/obj_loader.rs:34-86 | on success: the dummy at index 0, `vertex_count` = number of "v" lines, vertex k+1 the coordinates parsed from the k-th "v" line, `face_count` = number of "f" lines, face k the indices of the k-th "f" line |
| ObjLoader.LoadVertices | t1/src/obj_loader.rs:44-62 | on success, the vertices after the dummy are, in order, those parsed from the file's "v" lines, one per line |
| ObjLoader.LoadFailsAtFirstBadLine | t1/src/obj_loader.rs:44-83 | the load fails exactly when some line is rejected, and then with the message of the first rejected line |
| ObjLoader.IgnoredLinesChangeNothing | t1/src/obj_loader.rs:48-81 | dropping every line whose first token is neither "v" nor "f" (blank lines included) gives the same load |
| ObjLoader.Triangulate | t1/src/obj_loader.rs:142-155 | the nested loops emit the fan of every face, face after face |
| ObjLoader.FansCount | t1/src/obj_loader.rs:142-155 | the number of triangles is the sum of max(0, n−2) over the faces |
| ObjLoader.FansUseOwnFace | t1/src/obj_loader.rs:145-150 | every triangle's three indices come from one face of the input |
| ObjLoader.FanExamples | t1/src/obj_loader.rs:142-155 | a quad gives (1,2,3),(1,3,4), and the two faces of the sample file give four triangles in order |
| Viewer.EguiDebugDraw.constructor | t1/src/viewer.rs:18-25 | `new` gives empty buffers in mode 0 |
| Viewer.EguiDebugDraw.Clear | t1/src/viewer.rs:27-31 | `clear` empties the three buffers and keeps the mode |
| Viewer.EguiDebugDraw.Begin | t1/src/viewer.rs:35-37 | `begin` sets the mode and ignores the size |
| Viewer.EguiDebugDraw.Vertex | t1/src/viewer.rs:39-75 | `vertex` updates the buffers by the mode's rule (`VertexStep`) |
| Viewer.EguiDebugDraw.End | t1/src/viewer.rs:77 | `end` changes nothing |
| Viewer.ToColor32 | t1/src/viewer.rs:40-45 | for a channel in [0, 1], the stored byte is the integer part of the channel times 255 |
| Viewer.VertexStep | t1/src/viewer.rs:47-74 | `vertex` keeps the mode, never shrinks a buffer, and grows the buffers by at most one element in total |
| Viewer.EguiDebugDraw.Replay | t1/src/viewer.rs:34-77 | a sequence of calls on the sink has the effect of `Run` |
| Viewer.VertexByMode | t1/src/viewer.rs:47-74 | per mode: POINTS appends one point; LINES opens a segment on an even length and otherwise only moves the open segment's end; QUADS appends the quad (pos,pos,pos,pos,col) when the buffer is empty or the last quad's colour differs, and otherwise moves exactly corner `points.len() % 4` of the last quad to pos, keeping its other corners, its colour and the count; any other mode changes nothing |
| Viewer.RunBracket | t1/src/viewer.rs:35-77 | a bracketed batch sets the mode and then runs its vertices |
| Viewer.RunKeepsOneLine | t1/src/viewer.rs:48-55 | starting from at most one segment, the line buffer never holds more than one |
| Viewer.RunKeepsColoursAlternating | t1/src/viewer.rs:59-71 | neighbouring quads always differ in colour |
| Viewer.QuadsBatch | t1/src/viewer.rs:59-71 | with a point count that is a multiple of four, a QUADS batch keeps every quad before the last one, adds at most one quad per vertex, keeps every quad collapsed onto corner 0, leaves the quad buffer non-empty when it has a vertex, with the last quad's corner 0 and colour taken from the last vertex, and leaves lines and points alone |
| Viewer.LinesBatch | t1/src/viewer.rs:48-55 | a LINES batch on an empty buffer leaves one segment from its first to its last vertex, in the first vertex's colour |
| Viewer.PointsBatch | t1/src/viewer.rs:56-58 | a POINTS batch appends one point per vertex, in order |
| Viewer.FillUsesSinkPalette | t1/src/viewer.rs:79-86 | with this sink, every polygon is filled in `area_to_col` of its area |
| Viewer.AreaToCol | t1/src/viewer.rs:79-86 | `area_to_col` gives the null colour for 0, the walkable colour for 63, and for any other area a colour whose red is area/255, whose blue completes red to 1, with green and alpha 0.5 |
| Viewer.StoredAreaColours | t1/src/viewer.rs:79-86 | stored as bytes: area 0 is (0,0,0,63), area 63 is (0,191,255,63), any other a is (a,127,255−a,127) |
| Viewer.StoredFillIdentifiesArea | t1/src/viewer.rs:79-86 | two polygons get the same stored fill colour exactly when they have the same area |
| Viewer.SampleMeshWellFormed | t1/src/viewer.rs:126-150 | the viewer's sample mesh meets the walker's precondition |
| Viewer.MeshViewerApp.constructor | t1/src/viewer.rs:123-157 | `new` holds the sample mesh and a fresh, empty sink |
| Viewer.MeshViewerApp.DrawMesh | t1/src/viewer.rs:159-162 | after `draw_mesh`, the sink holds the drawing of the mesh only, whatever it held before |
| Viewer.DrawnFromAnyMode | t1/src/viewer.rs:159-162 | the drawing does not depend on the mode the sink was left in |
| Viewer.DrawnInStages | t1/src/viewer.rs:159-162 | drawing is the fill batch, then the boundary batch, then the point batch |
| Viewer.FillStage | t1/src/viewer.rs:59-71 | after the fill batch on cleared buffers: no lines or points, alternating collapsed quads, some exactly when there is a fill |
| Viewer.EdgeStage | t1/src/viewer.rs:48-55 | after the boundary batch: one segment from the first to the last boundary vertex, or none |
| Viewer.PointStage | t1/src/viewer.rs:56-58 | after the point batch: one point per mesh vertex, in order, lifted, in the vertex colour |
| Viewer.DrawnContents | t1/src/viewer.rs:159-162 | what the sink holds after `draw_mesh`: mode POINTS, one point per vertex, at most one segment, quads of alternating colours at most one per fill vertex |

## Left out

- Floating point: all `f32` arithmetic is modelled on exact reals, so rounding, infinities and NaN are not captured.
- Geometry.SaturatingToUint8: does not model NaN, which Rust casts to 0, because reals have no NaN.
- SlopeDraw.DrawTriMeshSlope: takes the walkable threshold directly, instead of `cos` of the slope angle in radians, because `cos` is floating-point library code.
- ObjLoader.LoadObj: the float parser for "v" coordinates is a parameter (any `string -> Option<real>`). Rust's `f32` parser is not modelled.
- ObjLoader.LoadObj: the file arrives as its sequence of lines. Opening and reading the file are I/O, so `IoError` is never produced.
- The sample-file unit test is covered only in part. Its faces' triangulation is checked (`FanExamples`). Its vertex coordinates depend on the float parser.
- `get_bounds`: left out, because it is a float min/max seeded with ±infinity.
- The egui/eframe shell is left out, because it is UI with no logic to model. This covers `update`, the gizmo, painter calls, `run`, `Camera`, `pos_to_screen` and `mat4_to_array`.
- Viewer.MeshViewerApp.DrawMesh: the walker's calls are replayed on the sink after the walk, not interleaved with it. The two are equivalent because the walker never reads the sink's buffers: its one query, `area_to_col`, reads no state. The rendering of the buffers to the screen is left out.
- Viewer.ToColor32: states the byte value only for channels in [0, 1]; outside that range the saturating cast on reals applies (`Geometry.SaturatingToUint8`).
- The slope renderer's `Vec2` (not imported in the source) is modelled as a pair of reals.
- `DU_DRAW_TRIS` (2) equals `DU_DRAW_LINES`, but belongs to a separate drawing interface. It gets its own call type.
- ObjLoader.ParseUsize: assumes a 64-bit `usize`.
