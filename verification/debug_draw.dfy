/** The polygon-mesh debug walker: turns a navigation mesh whose polygons are
    sentinel-padded index rows into three batches of drawing calls (filled
    fans coloured by area, boundary edge loops, vertex points). The drawing
    sink is modelled by the sequence of calls made on it; its pluggable
    `area_to_col` lookup is a function parameter. */
module DebugDraw {
  import opened Geometry

  // Primitive kinds understood by this drawing protocol.
  const DrawQuads: int := 1
  const DrawLines: int := 2
  const DrawPoints: int := 3

  // Area classification bytes and the "no vertex" index.
  const NullArea: uint8 := 0
  const WalkableArea: uint8 := 63
  const MeshNullIdx: uint16 := 0xffff

  // Fixed colours of the three passes.
  const WalkableColor := Vec4(0.0, 0.75, 1.0, 0.25)
  const NullColor := Vec4(0.0, 0.0, 0.0, 0.25)
  const BoundaryColor := Vec4(0.0, 0.25, 0.25, 0.86)
  const VertexColor := Vec4(0.0, 0.0, 0.0, 0.86)

  /** A navigation polygon mesh: vertices in cell coordinates, polygons as
      rows of at most `nvp` vertex indices padded with `MeshNullIdx`, one
      area byte per polygon, cell size `cs`, cell height `ch` and the world
      position `bmin` of the grid origin. */
  datatype PolyMesh = PolyMesh(
    verts: seq<Vec3>,
    polys: seq<seq<uint16>>,
    areas: seq<uint8>,
    nvp: int,
    cs: real,
    ch: real,
    bmin: Vec3)

  /** One call on the drawing sink. */
  datatype Call = Begin(prim: int, size: real) | Vertex(pos: Vec3, color: Vec4) | End

  predicate AllVertices(calls: seq<Call>) {
    forall c :: c in calls ==> c.Vertex?
  }

  predicate VerticesOfColor(calls: seq<Call>, color: Vec4) {
    forall c :: c in calls ==> c.Vertex? && c.color == color
  }

  // ---------------------------------------------------------------------
  // Index arithmetic of the walk

  /** `verts.len() as u16`: the bound every vertex index is compared with.
      Above 0xffff vertices the cast truncates. */
  function IndexBound(mesh: PolyMesh): (b: nat)
    ensures b <= |mesh.verts|
    ensures |mesh.verts| < 0x1_0000 ==> b == |mesh.verts|
  {
    |mesh.verts| % 0x1_0000
  }

  /** The walk over slot `j` of a polygon breaks here. */
  predicate Stops(poly: seq<uint16>, nvp: int, j: nat) {
    j >= nvp || j >= |poly| || poly[j] == MeshNullIdx
  }

  /** The first slot at or after `from` at which a slot walk breaks. */
  function FirstStop(poly: seq<uint16>, nvp: int, from: nat): (k: nat)
    ensures from <= k && Stops(poly, nvp, k)
    ensures forall j :: from <= j < k ==> !Stops(poly, nvp, j)
    ensures k == from || k <= |poly|
    decreases |poly| - from
  {
    if Stops(poly, nvp, from) then from else FirstStop(poly, nvp, from + 1)
  }

  /** Number of valid leading slots of a polygon: the boundary pass walks
      slots 0 .. ValidSlots - 1. */
  function ValidSlots(poly: seq<uint16>, nvp: int): nat {
    FirstStop(poly, nvp, 0)
  }

  /** The fill pass walks slots 2 .. FillEnd - 1 (it never inspects slots 0 and 1). */
  function FillEnd(poly: seq<uint16>, nvp: int): nat {
    FirstStop(poly, nvp, 2)
  }

  /** The boundary pass reads `poly[j + 1]` without a length check whenever
      `j + 1 < nvp`; this holds exactly when a polygon that stops short of
      `nvp` stores the slot after its last valid one. */
  predicate EdgeSafe(poly: seq<uint16>, nvp: int) {
    var k := ValidSlots(poly, nvp);
    k == 0 || k >= nvp || k < |poly|
  }

  /** What the walker demands of its input to run without a panic. */
  predicate WellFormed(mesh: PolyMesh) {
    && |mesh.areas| >= |mesh.polys|
    && forall i :: 0 <= i < |mesh.polys| ==> EdgeSafe(mesh.polys[i], mesh.nvp)
  }

  /** Slot the boundary edge leaving slot `j` goes to: the next slot, or
      slot 0 when the next one is past `nvp` or holds the sentinel. */
  function NextSlot(poly: seq<uint16>, nvp: int, j: nat): (n: nat)
    requires j < |poly|
    requires j + 1 >= nvp || j + 1 < |poly|
    ensures n < |poly|
  {
    if j + 1 >= nvp || poly[j + 1] == MeshNullIdx then 0 else j + 1
  }

  // ---------------------------------------------------------------------
  // Cell-to-world transform

  /** World position of a fill vertex: one cell height above the cell. */
  function FillPos(mesh: PolyMesh, v: Vec3): Vec3 {
    Vec3(mesh.bmin.x + v.x * mesh.cs,
         mesh.bmin.y + (v.y + 1.0) * mesh.ch,
         mesh.bmin.z + v.z * mesh.cs)
  }

  /** World position of a boundary or point vertex: 0.1 above the fill. */
  function EdgePos(mesh: PolyMesh, v: Vec3): (p: Vec3)
    ensures p.x == FillPos(mesh, v).x && p.z == FillPos(mesh, v).z
    ensures p.y == FillPos(mesh, v).y + 0.1
  {
    Vec3(mesh.bmin.x + v.x * mesh.cs,
         mesh.bmin.y + (v.y + 1.0) * mesh.ch + 0.1,
         mesh.bmin.z + v.z * mesh.cs)
  }

  function Place(mesh: PolyMesh, i: uint16, lifted: bool): Vec3
    requires (i as int) < |mesh.verts|
  {
    if lifted then EdgePos(mesh, mesh.verts[i]) else FillPos(mesh, mesh.verts[i])
  }

  // ---------------------------------------------------------------------
  // The calls of each pass

  /** Calls for the first `n` corners of a triangle or edge: a corner whose
      index is not below `IndexBound` is skipped. */
  function CornerCalls(mesh: PolyMesh, vi: seq<uint16>, n: nat, lifted: bool, color: Vec4): seq<Call>
    requires n <= |vi|
  {
    if n == 0 then []
    else CornerCalls(mesh, vi, n - 1, lifted, color)
         + (if (vi[n - 1] as int) < IndexBound(mesh)
            then [Vertex(Place(mesh, vi[n - 1], lifted), color)] else [])
  }

  /** Corners of the fan triangle closed by slot `j`. */
  function FanCorners(poly: seq<uint16>, j: nat): seq<uint16>
    requires 2 <= j < |poly|
  {
    [poly[0], poly[j - 1], poly[j]]
  }

  /** Fill calls for the fan triangles closed by slots 2 .. hi - 1. */
  function FillTris(mesh: PolyMesh, poly: seq<uint16>, color: Vec4, hi: nat): seq<Call>
    requires hi <= 2 || hi <= |poly|
  {
    if hi <= 2 then []
    else FillTris(mesh, poly, color, hi - 1) + CornerCalls(mesh, FanCorners(poly, hi - 1), 3, false, color)
  }

  /** Fill colour of a polygon with area byte `area`: the two reserved
      areas have fixed colours, and only the others are left to the sink. */
  function FillColor(area: uint8, areaToCol: uint8 -> Vec4): (c: Vec4)
    ensures area == WalkableArea ==> c == WalkableColor
    ensures area == NullArea ==> c == NullColor
    ensures area != WalkableArea && area != NullArea ==> c == areaToCol(area)
  {
    if area == WalkableArea then WalkableColor
    else if area == NullArea then NullColor
    else areaToCol(area)
  }

  function PolyFill(mesh: PolyMesh, i: nat, areaToCol: uint8 -> Vec4): seq<Call>
    requires i < |mesh.polys| && i < |mesh.areas|
  {
    var poly := mesh.polys[i];
    FillTris(mesh, poly, FillColor(mesh.areas[i], areaToCol), FillEnd(poly, mesh.nvp))
  }

  /** Fill calls for polygons 0 .. n - 1. */
  function FillPass(mesh: PolyMesh, areaToCol: uint8 -> Vec4, n: nat): seq<Call>
    requires n <= |mesh.polys| <= |mesh.areas|
  {
    if n == 0 then [] else FillPass(mesh, areaToCol, n - 1) + PolyFill(mesh, n - 1, areaToCol)
  }

  /** Area bytes passed to `area_to_col` while filling polygons 0 .. n - 1. */
  function Lookups(mesh: PolyMesh, n: nat): seq<uint8>
    requires n <= |mesh.polys| <= |mesh.areas|
  {
    if n == 0 then []
    else
      var area := mesh.areas[n - 1];
      Lookups(mesh, n - 1) + (if area == WalkableArea || area == NullArea then [] else [area])
  }

  /** Boundary calls for the edges leaving slots 0 .. hi - 1. */
  function EdgeCalls(mesh: PolyMesh, poly: seq<uint16>, hi: nat): seq<Call>
    requires EdgeSafe(poly, mesh.nvp) && hi <= ValidSlots(poly, mesh.nvp)
  {
    if hi == 0 then []
    else
      assert !Stops(poly, mesh.nvp, hi - 1);
      var next := NextSlot(poly, mesh.nvp, hi - 1);
      EdgeCalls(mesh, poly, hi - 1) + CornerCalls(mesh, [poly[hi - 1], poly[next]], 2, true, BoundaryColor)
  }

  function PolyEdges(mesh: PolyMesh, i: nat): seq<Call>
    requires WellFormed(mesh) && i < |mesh.polys|
  {
    var poly := mesh.polys[i];
    EdgeCalls(mesh, poly, ValidSlots(poly, mesh.nvp))
  }

  /** Boundary calls for polygons 0 .. n - 1. */
  function BoundaryPass(mesh: PolyMesh, n: nat): seq<Call>
    requires WellFormed(mesh) && n <= |mesh.polys|
  {
    if n == 0 then [] else BoundaryPass(mesh, n - 1) + PolyEdges(mesh, n - 1)
  }

  /** Point calls for vertices 0 .. n - 1. */
  function PointPass(mesh: PolyMesh, n: nat): seq<Call>
    requires n <= |mesh.verts|
  {
    if n == 0 then [] else PointPass(mesh, n - 1) + [Vertex(EdgePos(mesh, mesh.verts[n - 1]), VertexColor)]
  }

  /** `body` bracketed by `begin(prim, size)` and `end`. */
  function Bracket(prim: int, size: real, body: seq<Call>): seq<Call> {
    [Begin(prim, size)] + body + [End]
  }

  /** The whole sequence of calls `du_debug_draw_poly_mesh` makes. */
  function PolyMeshTrace(mesh: PolyMesh, areaToCol: uint8 -> Vec4): seq<Call>
    requires WellFormed(mesh)
  {
    Bracket(DrawQuads, 1.0, FillPass(mesh, areaToCol, |mesh.polys|))
    + Bracket(DrawLines, 2.5, BoundaryPass(mesh, |mesh.polys|))
    + Bracket(DrawPoints, 3.0, PointPass(mesh, |mesh.verts|))
  }

  // ---------------------------------------------------------------------
  // The walker: one method per pass, composed by DrawPolyMesh

  /** The corner loop shared by both passes: one vertex per corner whose
      index is below `verts.len() as u16`, at the fill height or, when
      `lifted`, 0.1 above it. */
  method EmitCorners(mesh: PolyMesh, vi: seq<uint16>, lifted: bool, color: Vec4) returns (calls: seq<Call>)
    ensures calls == CornerCalls(mesh, vi, |vi|, lifted, color)
  {
    var vertCount := |mesh.verts| % 0x1_0000;  // verts.len() as u16
    calls := [];
    for k := 0 to |vi|
      invariant calls == CornerCalls(mesh, vi, k, lifted, color)
    {
      if vi[k] as int >= vertCount {
        continue;
      }
      var v := mesh.verts[vi[k]];
      var x := mesh.bmin.x + v.x * mesh.cs;
      var y := mesh.bmin.y + (v.y + 1.0) * mesh.ch;
      var z := mesh.bmin.z + v.z * mesh.cs;
      if lifted {
        y := y + 0.1;
      }
      assert Vec3(x, y, z) == Place(mesh, vi[k], lifted);
      calls := calls + [Vertex(Vec3(x, y, z), color)];
    }
  }

  /** Fan triangles of one polygon, up to its first sentinel or `nvp`. */
  method EmitPolyFill(mesh: PolyMesh, poly: seq<uint16>, color: Vec4) returns (calls: seq<Call>)
    ensures calls == FillTris(mesh, poly, color, FillEnd(poly, mesh.nvp))
  {
    calls := [];
    var j := 2;
    while j < mesh.nvp
      invariant 2 <= j <= FillEnd(poly, mesh.nvp)
      invariant calls == FillTris(mesh, poly, color, j)
    {
      if j >= |poly| || poly[j] == MeshNullIdx {
        break;
      }
      var tri := EmitCorners(mesh, [poly[0], poly[j - 1], poly[j]], false, color);
      calls := calls + tri;
      j := j + 1;
    }
    assert Stops(poly, mesh.nvp, j);
  }

  /** Fill pass: the fan triangles of every polygon in its area colour.
      Returns the vertex calls and the area bytes passed to `areaToCol`. */
  method EmitFill(mesh: PolyMesh, areaToCol: uint8 -> Vec4) returns (calls: seq<Call>, lookups: seq<uint8>)
    requires |mesh.areas| >= |mesh.polys|
    ensures calls == FillPass(mesh, areaToCol, |mesh.polys|)
    ensures lookups == Lookups(mesh, |mesh.polys|)
  {
    calls, lookups := [], [];
    for i := 0 to |mesh.polys|
      invariant calls == FillPass(mesh, areaToCol, i)
      invariant lookups == Lookups(mesh, i)
    {
      var area := mesh.areas[i];
      var color;
      if area == WalkableArea {
        color := WalkableColor;
      } else if area == NullArea {
        color := NullColor;
      } else {
        color := areaToCol(area);
        lookups := lookups + [area];
      }
      var tris := EmitPolyFill(mesh, mesh.polys[i], color);
      calls := calls + tris;
    }
  }

  /** Boundary edges of one polygon: one per valid slot, to the next slot
      or back to slot 0. */
  method EmitPolyEdges(mesh: PolyMesh, poly: seq<uint16>) returns (calls: seq<Call>)
    requires EdgeSafe(poly, mesh.nvp)
    ensures calls == EdgeCalls(mesh, poly, ValidSlots(poly, mesh.nvp))
  {
    calls := [];
    var j := 0;
    while j < mesh.nvp
      invariant 0 <= j <= ValidSlots(poly, mesh.nvp)
      invariant calls == EdgeCalls(mesh, poly, j)
    {
      if j >= |poly| || poly[j] == MeshNullIdx {
        break;
      }
      var nj := if j + 1 >= mesh.nvp || poly[j + 1] == MeshNullIdx then 0 else j + 1;
      var edge := EmitCorners(mesh, [poly[j], poly[nj]], true, BoundaryColor);
      calls := calls + edge;
      j := j + 1;
    }
    assert Stops(poly, mesh.nvp, j);
  }

  /** Boundary pass: the edges of every polygon. */
  method EmitBoundary(mesh: PolyMesh) returns (calls: seq<Call>)
    requires WellFormed(mesh)
    ensures calls == BoundaryPass(mesh, |mesh.polys|)
  {
    calls := [];
    for i := 0 to |mesh.polys|
      invariant calls == BoundaryPass(mesh, i)
    {
      assert EdgeSafe(mesh.polys[i], mesh.nvp);
      var edges := EmitPolyEdges(mesh, mesh.polys[i]);
      calls := calls + edges;
    }
  }

  /** Point pass: one point per mesh vertex. */
  method EmitPoints(mesh: PolyMesh) returns (calls: seq<Call>)
    ensures calls == PointPass(mesh, |mesh.verts|)
  {
    calls := [];
    for n := 0 to |mesh.verts|
      invariant calls == PointPass(mesh, n)
    {
      var vert := mesh.verts[n];
      var x := mesh.bmin.x + vert.x * mesh.cs;
      var y := mesh.bmin.y + (vert.y + 1.0) * mesh.ch + 0.1;
      var z := mesh.bmin.z + vert.z * mesh.cs;
      assert Vec3(x, y, z) == EdgePos(mesh, vert);
      calls := calls + [Vertex(Vec3(x, y, z), VertexColor)];
    }
  }

  /** `du_debug_draw_poly_mesh`: draws `mesh` on a sink whose area lookup is
      `areaToCol`; returns the calls made on the sink and the area bytes it
      was asked to colour. */
  method DrawPolyMesh(mesh: PolyMesh, areaToCol: uint8 -> Vec4) returns (trace: seq<Call>, lookups: seq<uint8>)
    requires WellFormed(mesh)
    ensures trace == PolyMeshTrace(mesh, areaToCol)
    ensures lookups == Lookups(mesh, |mesh.polys|)
  {
    var fill;
    fill, lookups := EmitFill(mesh, areaToCol);
    trace := Bracket(DrawQuads, 1.0, fill);

    var edges := EmitBoundary(mesh);
    trace := trace + Bracket(DrawLines, 2.5, edges);

    var points := EmitPoints(mesh);
    trace := trace + Bracket(DrawPoints, 3.0, points);
  }

  // ---------------------------------------------------------------------
  // Properties of the walk

  /** The in-range entries of `vi`, in order. */
  function InRange(mesh: PolyMesh, vi: seq<uint16>): (r: seq<uint16>)
    ensures |r| <= |vi|
    ensures forall t :: 0 <= t < |r| ==> (r[t] as int) < IndexBound(mesh)
  {
    if vi == [] then []
    else
      var last := vi[|vi| - 1];
      InRange(mesh, vi[..|vi| - 1]) + (if (last as int) < IndexBound(mesh) then [last] else [])
  }

  /** A corner whose index is out of range is skipped without a call; every
      other corner gets exactly one call, in order. */
  lemma {:induction false} CornerCallsSkip(mesh: PolyMesh, vi: seq<uint16>, n: nat, lifted: bool, color: Vec4)
    requires n <= |vi|
    ensures var kept := InRange(mesh, vi[..n]);
      && |CornerCalls(mesh, vi, n, lifted, color)| == |kept|
      && forall t :: 0 <= t < |kept| ==>
           CornerCalls(mesh, vi, n, lifted, color)[t] == Vertex(Place(mesh, kept[t], lifted), color)
  {
    if n > 0 {
      CornerCallsSkip(mesh, vi, n - 1, lifted, color);
      assert vi[..n][..n - 1] == vi[..n - 1];
    }
  }

  /** With every corner in range, corner `t` gives call `t`. */
  lemma {:induction false} CornerCallsInRange(mesh: PolyMesh, vi: seq<uint16>, n: nat, lifted: bool, color: Vec4)
    requires n <= |vi|
    requires forall t :: 0 <= t < n ==> (vi[t] as int) < IndexBound(mesh)
    ensures |CornerCalls(mesh, vi, n, lifted, color)| == n
    ensures forall t :: 0 <= t < n ==>
      CornerCalls(mesh, vi, n, lifted, color)[t] == Vertex(Place(mesh, vi[t], lifted), color)
  {
    if n > 0 {
      CornerCallsInRange(mesh, vi, n - 1, lifted, color);
    }
  }

  lemma {:induction false} CornerCallsColored(mesh: PolyMesh, vi: seq<uint16>, n: nat, lifted: bool, color: Vec4)
    requires n <= |vi|
    ensures VerticesOfColor(CornerCalls(mesh, vi, n, lifted, color), color)
  {
    if n > 0 {
      CornerCallsColored(mesh, vi, n - 1, lifted, color);
    }
  }

  lemma {:induction false} FillTrisColored(mesh: PolyMesh, poly: seq<uint16>, color: Vec4, hi: nat)
    requires hi <= 2 || hi <= |poly|
    ensures VerticesOfColor(FillTris(mesh, poly, color, hi), color)
  {
    if hi > 2 {
      FillTrisColored(mesh, poly, color, hi - 1);
      CornerCallsColored(mesh, FanCorners(poly, hi - 1), 3, false, color);
    }
  }

  /** Every fill vertex of polygon `i` has the colour of its area byte: the
      walkable colour for 63, the null colour for 0, and the sink's lookup
      for every other byte. */
  lemma PolyFillColored(mesh: PolyMesh, areaToCol: uint8 -> Vec4, i: nat)
    requires i < |mesh.polys| <= |mesh.areas|
    ensures mesh.areas[i] == WalkableArea ==> VerticesOfColor(PolyFill(mesh, i, areaToCol), WalkableColor)
    ensures mesh.areas[i] == NullArea ==> VerticesOfColor(PolyFill(mesh, i, areaToCol), NullColor)
    ensures mesh.areas[i] != WalkableArea && mesh.areas[i] != NullArea ==>
      VerticesOfColor(PolyFill(mesh, i, areaToCol), areaToCol(mesh.areas[i]))
  {
    var poly := mesh.polys[i];
    FillTrisColored(mesh, poly, FillColor(mesh.areas[i], areaToCol), FillEnd(poly, mesh.nvp));
  }

  /** `area_to_col` is asked exactly about the polygons whose area byte is
      neither 0 nor 63, in polygon order. */
  lemma {:induction false} LookupsAreCustomAreas(mesh: PolyMesh, n: nat)
    requires n <= |mesh.polys| <= |mesh.areas|
    ensures forall a :: a in Lookups(mesh, n) ==> a != NullArea && a != WalkableArea
    ensures forall i :: 0 <= i < n && mesh.areas[i] != NullArea && mesh.areas[i] != WalkableArea ==>
      mesh.areas[i] in Lookups(mesh, n)
    ensures |Lookups(mesh, n)| <= n
  {
    if n > 0 {
      LookupsAreCustomAreas(mesh, n - 1);
    }
  }

  lemma {:induction false} FillPassVertices(mesh: PolyMesh, areaToCol: uint8 -> Vec4, n: nat)
    requires n <= |mesh.polys| <= |mesh.areas|
    ensures AllVertices(FillPass(mesh, areaToCol, n))
  {
    if n > 0 {
      FillPassVertices(mesh, areaToCol, n - 1);
      var poly := mesh.polys[n - 1];
      FillTrisColored(mesh, poly, FillColor(mesh.areas[n - 1], areaToCol), FillEnd(poly, mesh.nvp));
    }
  }

  lemma {:induction false} EdgeCallsColored(mesh: PolyMesh, poly: seq<uint16>, hi: nat)
    requires EdgeSafe(poly, mesh.nvp) && hi <= ValidSlots(poly, mesh.nvp)
    ensures VerticesOfColor(EdgeCalls(mesh, poly, hi), BoundaryColor)
  {
    if hi > 0 {
      EdgeCallsColored(mesh, poly, hi - 1);
      var next := NextSlot(poly, mesh.nvp, hi - 1);
      CornerCallsColored(mesh, [poly[hi - 1], poly[next]], 2, true, BoundaryColor);
    }
  }

  /** Every boundary vertex is drawn in the boundary colour. */
  lemma {:induction false} BoundaryPassColored(mesh: PolyMesh, n: nat)
    requires WellFormed(mesh) && n <= |mesh.polys|
    ensures VerticesOfColor(BoundaryPass(mesh, n), BoundaryColor)
  {
    if n > 0 {
      BoundaryPassColored(mesh, n - 1);
      var poly := mesh.polys[n - 1];
      EdgeCallsColored(mesh, poly, ValidSlots(poly, mesh.nvp));
    }
  }

  /** The point pass emits exactly one point per mesh vertex, in vertex
      order, lifted like the boundary and in the vertex colour. */
  lemma {:induction false} PointsOnePerVertex(mesh: PolyMesh, n: nat)
    requires n <= |mesh.verts|
    ensures |PointPass(mesh, n)| == n
    ensures forall i :: 0 <= i < n ==> PointPass(mesh, n)[i] == Vertex(EdgePos(mesh, mesh.verts[i]), VertexColor)
  {
    if n > 0 {
      PointsOnePerVertex(mesh, n - 1);
    }
  }

  /** Every point is drawn in the vertex colour, one per vertex. */
  lemma {:induction false} PointPassColored(mesh: PolyMesh, n: nat)
    requires n <= |mesh.verts|
    ensures |PointPass(mesh, n)| == n
    ensures VerticesOfColor(PointPass(mesh, n), VertexColor)
  {
    if n > 0 {
      PointPassColored(mesh, n - 1);
    }
  }

  /** `calls` is one batch: a `Begin(prim, size)`, vertex calls only, then `End`. */
  predicate IsBatch(calls: seq<Call>, prim: int, size: real) {
    && |calls| >= 2
    && calls[0] == Begin(prim, size)
    && calls[|calls| - 1] == End
    && forall n :: 0 < n < |calls| - 1 ==> calls[n].Vertex?
  }

  lemma BracketIsBatch(body: seq<Call>, prim: int, size: real)
    requires AllVertices(body)
    ensures IsBatch(Bracket(prim, size, body), prim, size)
  {
    var calls := Bracket(prim, size, body);
    forall n | 0 < n < |calls| - 1
      ensures calls[n].Vertex?
    {
      assert calls[n] == body[n - 1];
    }
  }

  /** The trace is exactly three batches, in this order: filled quads (size
      1.0), lines (size 2.5) and points (size 3.0, one per mesh vertex). */
  lemma TraceShape(mesh: PolyMesh, areaToCol: uint8 -> Vec4)
    requires WellFormed(mesh)
    ensures var t := PolyMeshTrace(mesh, areaToCol);
      var a, b := |FillPass(mesh, areaToCol, |mesh.polys|)|, |BoundaryPass(mesh, |mesh.polys|)|;
      && |t| == a + b + |mesh.verts| + 6
      && IsBatch(t[..a + 2], DrawQuads, 1.0)
      && IsBatch(t[a + 2 .. a + b + 4], DrawLines, 2.5)
      && IsBatch(t[a + b + 4 ..], DrawPoints, 3.0)
  {
    var fill := FillPass(mesh, areaToCol, |mesh.polys|);
    var edges := BoundaryPass(mesh, |mesh.polys|);
    var points := PointPass(mesh, |mesh.verts|);
    var f := Bracket(DrawQuads, 1.0, fill);
    var l := Bracket(DrawLines, 2.5, edges);
    var p := Bracket(DrawPoints, 3.0, points);
    assert IsBatch(f, DrawQuads, 1.0) by {
      FillPassVertices(mesh, areaToCol, |mesh.polys|);
      BracketIsBatch(fill, DrawQuads, 1.0);
    }
    assert IsBatch(l, DrawLines, 2.5) by {
      BoundaryPassColored(mesh, |mesh.polys|);
      BracketIsBatch(edges, DrawLines, 2.5);
    }
    assert |points| == |mesh.verts| && IsBatch(p, DrawPoints, 3.0) by {
      PointPassColored(mesh, |mesh.verts|);
      BracketIsBatch(points, DrawPoints, 3.0);
    }
    assert PolyMeshTrace(mesh, areaToCol) == f + l + p;
    ThreeParts(f, l, p);
  }

  /** The three parts of a concatenation are its slices. */
  lemma ThreeParts(f: seq<Call>, l: seq<Call>, p: seq<Call>)
    ensures (f + l + p)[..|f|] == f
    ensures (f + l + p)[|f| .. |f| + |l|] == l
    ensures (f + l + p)[|f| + |l| ..] == p
  {
  }

  /** With every index in range, each fan triangle gives three calls. */
  lemma {:induction false} FillTrisLength(mesh: PolyMesh, poly: seq<uint16>, color: Vec4, hi: nat)
    requires 2 <= hi <= |poly|
    requires forall j :: 0 <= j < hi ==> (poly[j] as int) < IndexBound(mesh)
    ensures |FillTris(mesh, poly, color, hi)| == 3 * (hi - 2)
  {
    if hi > 2 {
      FillTrisLength(mesh, poly, color, hi - 1);
      CornerCallsInRange(mesh, FanCorners(poly, hi - 1), 3, false, color);
    }
  }

  /** With every index in range, call 3 (j - 2) + c is corner c of the fan
      triangle closed by slot j. */
  lemma {:induction false} FanTriangleAt(mesh: PolyMesh, poly: seq<uint16>, color: Vec4, hi: nat, j: nat, c: nat)
    requires 2 <= j < hi <= |poly| && c < 3
    requires forall j :: 0 <= j < hi ==> (poly[j] as int) < IndexBound(mesh)
    ensures 3 * (j - 2) + c < |FillTris(mesh, poly, color, hi)|
    ensures FillTris(mesh, poly, color, hi)[3 * (j - 2) + c] == Vertex(Place(mesh, FanCorners(poly, j)[c], false), color)
  {
    FillTrisLength(mesh, poly, color, hi - 1);
    var prev := FillTris(mesh, poly, color, hi - 1);
    var last := CornerCalls(mesh, FanCorners(poly, hi - 1), 3, false, color);
    assert FillTris(mesh, poly, color, hi) == prev + last;
    if j < hi - 1 {
      FanTriangleAt(mesh, poly, color, hi - 1, j, c);
    } else {
      CornerCallsInRange(mesh, FanCorners(poly, hi - 1), 3, false, color);
    }
  }

  /** With every index in range, the fill of slots 2 .. hi - 1 is the fan
      triangles (poly[0], poly[j-1], poly[j]), three calls each, in order. */
  lemma FanTriangles(mesh: PolyMesh, poly: seq<uint16>, color: Vec4, hi: nat)
    requires 2 <= hi <= |poly|
    requires forall j :: 0 <= j < hi ==> (poly[j] as int) < IndexBound(mesh)
    ensures |FillTris(mesh, poly, color, hi)| == 3 * (hi - 2)
    ensures forall j, c :: 2 <= j < hi && 0 <= c < 3 ==>
      FillTris(mesh, poly, color, hi)[3 * (j - 2) + c] == Vertex(Place(mesh, FanCorners(poly, j)[c], false), color)
  {
    FillTrisLength(mesh, poly, color, hi);
    forall j, c | 2 <= j < hi && 0 <= c < 3
      ensures FillTris(mesh, poly, color, hi)[3 * (j - 2) + c] == Vertex(Place(mesh, FanCorners(poly, j)[c], false), color)
    {
      FanTriangleAt(mesh, poly, color, hi, j, c);
    }
  }

  /** A polygon with k >= 2 valid leading slots, all in range, is filled with
      exactly k - 2 fan triangles (3 (k - 2) vertex calls), triangle j - 2
      having corners poly[0], poly[j - 1], poly[j]. */
  lemma PolygonFill(mesh: PolyMesh, areaToCol: uint8 -> Vec4, i: nat)
    requires i < |mesh.polys| <= |mesh.areas|
    requires ValidSlots(mesh.polys[i], mesh.nvp) >= 2
    requires forall j :: 0 <= j < ValidSlots(mesh.polys[i], mesh.nvp) ==> (mesh.polys[i][j] as int) < IndexBound(mesh)
    ensures var poly, k := mesh.polys[i], ValidSlots(mesh.polys[i], mesh.nvp);
      && |PolyFill(mesh, i, areaToCol)| == 3 * (k - 2)
      && forall j, c :: 2 <= j < k && 0 <= c < 3 ==>
           PolyFill(mesh, i, areaToCol)[3 * (j - 2) + c]
           == Vertex(Place(mesh, FanCorners(poly, j)[c], false), FillColor(mesh.areas[i], areaToCol))
  {
    var poly, k := mesh.polys[i], ValidSlots(mesh.polys[i], mesh.nvp);
    assert !Stops(poly, mesh.nvp, 0) && !Stops(poly, mesh.nvp, 1);
    assert FillEnd(poly, mesh.nvp) == k;
    FanTriangles(mesh, poly, FillColor(mesh.areas[i], areaToCol), k);
  }

  /** The slot after `j` in a closed loop of `k` slots. */
  function LoopNext(j: nat, k: nat): nat {
    if j + 1 < k then j + 1 else 0
  }

  /** Going round a loop of k slots is counting modulo k. */
  lemma LoopNextIsModular(j: nat, k: nat)
    requires j < k
    ensures LoopNext(j, k) == (j + 1) % k
  {
  }

  /** The boundary edge leaving valid slot j ends at the next valid slot,
      wrapping to slot 0 after the last: the edges of a polygon form one
      closed loop. */
  lemma NextSlotWraps(poly: seq<uint16>, nvp: int, j: nat)
    requires EdgeSafe(poly, nvp) && j < ValidSlots(poly, nvp)
    ensures j + 1 >= nvp || j + 1 < |poly|
    ensures NextSlot(poly, nvp, j) == LoopNext(j, ValidSlots(poly, nvp))
  {
    var k := ValidSlots(poly, nvp);
    assert !Stops(poly, nvp, j);
    if j + 1 < k {
      assert !Stops(poly, nvp, j + 1);
    } else {
      assert Stops(poly, nvp, k);
    }
  }

  /** With every valid slot in range, each boundary edge gives two calls. */
  lemma {:induction false} EdgeCallsLength(mesh: PolyMesh, poly: seq<uint16>, hi: nat)
    requires EdgeSafe(poly, mesh.nvp) && hi <= ValidSlots(poly, mesh.nvp)
    requires forall j :: 0 <= j < ValidSlots(poly, mesh.nvp) ==> (poly[j] as int) < IndexBound(mesh)
    ensures |EdgeCalls(mesh, poly, hi)| == 2 * hi
  {
    if hi > 0 {
      EdgeCallsLength(mesh, poly, hi - 1);
      NextSlotWraps(poly, mesh.nvp, hi - 1);
      var next := NextSlot(poly, mesh.nvp, hi - 1);
      CornerCallsInRange(mesh, [poly[hi - 1], poly[next]], 2, true, BoundaryColor);
    }
  }

  /** With every valid slot in range, calls 2j and 2j + 1 are the boundary
      edge from slot j to the next valid slot, wrapping round. */
  lemma {:induction false} EdgeAt(mesh: PolyMesh, poly: seq<uint16>, hi: nat, j: nat)
    requires EdgeSafe(poly, mesh.nvp) && j < hi <= ValidSlots(poly, mesh.nvp)
    requires forall j :: 0 <= j < ValidSlots(poly, mesh.nvp) ==> (poly[j] as int) < IndexBound(mesh)
    ensures var calls, k := EdgeCalls(mesh, poly, hi), ValidSlots(poly, mesh.nvp);
      && 2 * j + 1 < |calls|
      && calls[2 * j] == Vertex(Place(mesh, poly[j], true), BoundaryColor)
      && calls[2 * j + 1] == Vertex(Place(mesh, poly[LoopNext(j, k)], true), BoundaryColor)
  {
    assert !Stops(poly, mesh.nvp, hi - 1);
    var prev := EdgeCalls(mesh, poly, hi - 1);
    var next := NextSlot(poly, mesh.nvp, hi - 1);
    var last := CornerCalls(mesh, [poly[hi - 1], poly[next]], 2, true, BoundaryColor);
    assert EdgeCalls(mesh, poly, hi) == prev + last;
    EdgeCallsLength(mesh, poly, hi - 1);
    if j < hi - 1 {
      EdgeAt(mesh, poly, hi - 1, j);
    } else {
      NextSlotWraps(poly, mesh.nvp, hi - 1);
      CornerCallsInRange(mesh, [poly[hi - 1], poly[next]], 2, true, BoundaryColor);
    }
  }

  /** With every valid slot in range, the boundary of a polygon with k valid
      slots is the k edges poly[j] -> poly[LoopNext(j, k)], two calls each. */
  lemma EdgeLoop(mesh: PolyMesh, poly: seq<uint16>, hi: nat)
    requires EdgeSafe(poly, mesh.nvp) && hi <= ValidSlots(poly, mesh.nvp)
    requires forall j :: 0 <= j < ValidSlots(poly, mesh.nvp) ==> (poly[j] as int) < IndexBound(mesh)
    ensures |EdgeCalls(mesh, poly, hi)| == 2 * hi
    ensures forall j :: 0 <= j < hi ==>
      && EdgeCalls(mesh, poly, hi)[2 * j] == Vertex(Place(mesh, poly[j], true), BoundaryColor)
      && EdgeCalls(mesh, poly, hi)[2 * j + 1]
         == Vertex(Place(mesh, poly[LoopNext(j, ValidSlots(poly, mesh.nvp))], true), BoundaryColor)
  {
    EdgeCallsLength(mesh, poly, hi);
    forall j | 0 <= j < hi
      ensures EdgeCalls(mesh, poly, hi)[2 * j] == Vertex(Place(mesh, poly[j], true), BoundaryColor)
      ensures EdgeCalls(mesh, poly, hi)[2 * j + 1]
              == Vertex(Place(mesh, poly[LoopNext(j, ValidSlots(poly, mesh.nvp))], true), BoundaryColor)
    {
      EdgeAt(mesh, poly, hi, j);
    }
  }

  /** The fill pass never looks at slots 0 and 1: a row whose slot 0 holds
      the sentinel has no valid slot, yet its slots 1 and 2 are still drawn. */
  lemma FillIgnoresLeadingSlots(areaToCol: uint8 -> Vec4)
    ensures var mesh := PolyMesh([Vec3(0.0, 0.0, 0.0), Vec3(1.0, 0.0, 0.0)], [[MeshNullIdx, 0, 1, MeshNullIdx]],
                                 [WalkableArea], 4, 1.0, 1.0, Vec3(0.0, 0.0, 0.0));
      && ValidSlots(mesh.polys[0], mesh.nvp) == 0
      && |PolyFill(mesh, 0, areaToCol)| == 2
  {
    var mesh := PolyMesh([Vec3(0.0, 0.0, 0.0), Vec3(1.0, 0.0, 0.0)], [[MeshNullIdx, 0, 1, MeshNullIdx]],
                         [WalkableArea], 4, 1.0, 1.0, Vec3(0.0, 0.0, 0.0));
    var poly := mesh.polys[0];
    assert Stops(poly, 4, 0);
    assert !Stops(poly, 4, 2) && Stops(poly, 4, 3);
    assert FillEnd(poly, 4) == 3;
    var vi := FanCorners(poly, 2);
    assert vi == [MeshNullIdx, 0, 1];
    assert CornerCalls(mesh, vi, 1, false, WalkableColor) == [];
    assert |CornerCalls(mesh, vi, 2, false, WalkableColor)| == 1;
    assert |CornerCalls(mesh, vi, 3, false, WalkableColor)| == 2;
    assert PolyFill(mesh, 0, areaToCol) == FillTris(mesh, poly, WalkableColor, 3);
  }
  /** A row with a single valid slot still gets fan triangles for slots 2
      and 3: the 3·(k − 2) count of `PolygonFill` starts at k = 2. */
  lemma FillWithOneValidSlot(areaToCol: uint8 -> Vec4)
    ensures var mesh := PolyMesh([Vec3(0.0, 0.0, 0.0), Vec3(1.0, 0.0, 0.0), Vec3(0.0, 0.0, 1.0)],
                                 [[0, MeshNullIdx, 1, 2]], [WalkableArea], 4, 1.0, 1.0, Vec3(0.0, 0.0, 0.0));
      && ValidSlots(mesh.polys[0], mesh.nvp) == 1
      && |PolyFill(mesh, 0, areaToCol)| == 5
  {
    var mesh := PolyMesh([Vec3(0.0, 0.0, 0.0), Vec3(1.0, 0.0, 0.0), Vec3(0.0, 0.0, 1.0)],
                         [[0, MeshNullIdx, 1, 2]], [WalkableArea], 4, 1.0, 1.0, Vec3(0.0, 0.0, 0.0));
    var poly := mesh.polys[0];
    assert !Stops(poly, 4, 0) && Stops(poly, 4, 1);
    assert !Stops(poly, 4, 2) && !Stops(poly, 4, 3) && Stops(poly, 4, 4);
    assert FillEnd(poly, 4) == 4;
    var vi := FanCorners(poly, 2);
    assert vi == [0, MeshNullIdx, 1];
    assert |CornerCalls(mesh, vi, 1, false, WalkableColor)| == 1;
    assert |CornerCalls(mesh, vi, 2, false, WalkableColor)| == 1;
    assert |CornerCalls(mesh, vi, 3, false, WalkableColor)| == 2;
    var vj := FanCorners(poly, 3);
    assert vj == [0, 1, 2];
    assert |CornerCalls(mesh, vj, 1, false, WalkableColor)| == 1;
    assert |CornerCalls(mesh, vj, 2, false, WalkableColor)| == 2;
    assert |CornerCalls(mesh, vj, 3, false, WalkableColor)| == 3;
    assert FillTris(mesh, poly, WalkableColor, 3) == FillTris(mesh, poly, WalkableColor, 2) + CornerCalls(mesh, vi, 3, false, WalkableColor);
    assert FillTris(mesh, poly, WalkableColor, 4) == FillTris(mesh, poly, WalkableColor, 3) + CornerCalls(mesh, vj, 3, false, WalkableColor);
    assert PolyFill(mesh, 0, areaToCol) == FillTris(mesh, poly, WalkableColor, 4);
  }
}
