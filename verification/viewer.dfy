/** The egui debug-draw sink and the viewer's `draw_mesh`. The sink is a
    small state machine: a current primitive mode and three buffers (line
    segments, points, quads) that each `vertex` call updates according to
    the mode. */
module Viewer {
  import opened Geometry
  import DD = DebugDraw

  /** egui `Color32` built by `from_rgba_premultiplied`: the four bytes as
      given. */
  datatype Color32 = Color32(r: uint8, g: uint8, b: uint8, a: uint8)

  /** The colour conversion at the top of `vertex`: each channel times 255,
      cast with `as u8`. A channel in [0, 1] becomes the byte below it on the
      0..255 scale. */
  function ToColor32(c: Vec4): (r: Color32)
    ensures 0.0 <= c.x <= 1.0 ==> r.r as real <= c.x * 255.0 < r.r as real + 1.0
    ensures 0.0 <= c.y <= 1.0 ==> r.g as real <= c.y * 255.0 < r.g as real + 1.0
    ensures 0.0 <= c.z <= 1.0 ==> r.b as real <= c.z * 255.0 < r.b as real + 1.0
    ensures 0.0 <= c.w <= 1.0 ==> r.a as real <= c.w * 255.0 < r.a as real + 1.0
  {
    Color32(
      SaturatingToUint8(c.x * 255.0), SaturatingToUint8(c.y * 255.0),
      SaturatingToUint8(c.z * 255.0), SaturatingToUint8(c.w * 255.0))
  }

  datatype Line = Line(p0: Vec3, p1: Vec3, color: Color32)
  datatype Point = Point(pos: Vec3, color: Color32)
  datatype Quad = Quad(c0: Vec3, c1: Vec3, c2: Vec3, c3: Vec3, color: Color32)

  /** The sink's whole state. */
  datatype Buffers = Buffers(lines: seq<Line>, points: seq<Point>, quads: seq<Quad>, mode: int)

  /** Corner `i` of a quad. */
  function Corner(q: Quad, i: nat): Vec3
    requires i < 4
  {
    if i == 0 then q.c0 else if i == 1 then q.c1 else if i == 2 then q.c2 else q.c3
  }

  /** `after` is `before` with corner `k` at `pos`, its other corners and its
      colour kept. */
  predicate MovesCorner(before: Quad, after: Quad, k: nat, pos: Vec3) {
    && after.color == before.color
    && forall i :: 0 <= i < 4 ==> Corner(after, i) == if i == k then pos else Corner(before, i)
  }

  /** Quad `q` with corner `corner` moved to `pos`; any other corner number
      leaves it as it is. */
  function SetCorner(q: Quad, corner: nat, pos: Vec3): Quad {
    if corner == 0 then q.(c0 := pos)
    else if corner == 1 then q.(c1 := pos)
    else if corner == 2 then q.(c2 := pos)
    else if corner == 3 then q.(c3 := pos)
    else q
  }

  /** Effect of one `vertex` call. In LINES mode an odd buffer length means
      the last segment is open and gets its end point, an even one opens a
      new segment. In QUADS mode a vertex of a new colour opens a quad, one
      of the same colour moves corner `points.len() % 4` of the last quad. */
  function VertexStep(b: Buffers, pos: Vec3, color: Vec4): (r: Buffers)
    ensures r.mode == b.mode
    ensures |b.lines| <= |r.lines| && |b.points| <= |r.points| && |b.quads| <= |r.quads|
    ensures |r.lines| + |r.points| + |r.quads| <= |b.lines| + |b.points| + |b.quads| + 1
  {
    var col := ToColor32(color);
    if b.mode == DD.DrawLines then
      if |b.lines| % 2 == 1 then b.(lines := b.lines[..|b.lines| - 1] + [b.lines[|b.lines| - 1].(p1 := pos)])
      else b.(lines := b.lines + [Line(pos, pos, col)])
    else if b.mode == DD.DrawPoints then
      b.(points := b.points + [Point(pos, col)])
    else if b.mode == DD.DrawQuads then
      if |b.quads| == 0 || b.quads[|b.quads| - 1].color != col then
        b.(quads := b.quads + [Quad(pos, pos, pos, pos, col)])
      else
        b.(quads := b.quads[..|b.quads| - 1] + [SetCorner(b.quads[|b.quads| - 1], |b.points| % 4, pos)])
    else b
  }

  /** Effect of one call of the drawing interface; `size` is ignored. */
  function Apply(b: Buffers, call: DD.Call): Buffers {
    match call
    case Begin(prim, _) => b.(mode := prim)
    case Vertex(pos, color) => VertexStep(b, pos, color)
    case End => b
  }

  /** Effect of a sequence of calls, in order. */
  function Run(b: Buffers, calls: seq<DD.Call>): Buffers {
    if calls == [] then b else Apply(Run(b, calls[..|calls| - 1]), calls[|calls| - 1])
  }

  /** `area_to_col` of the egui sink. It agrees with the walker's own colours
      for the null and walkable areas; any other area `a` gets red a/255 and
      blue (255 - a)/255, which add up to one, at half green and half alpha. */
  function AreaToCol(area: uint8): (c: Vec4)
    ensures area == DD.NullArea ==> c == DD.NullColor
    ensures area == DD.WalkableArea ==> c == DD.WalkableColor
    ensures area != DD.NullArea && area != DD.WalkableArea ==>
      c.x * 255.0 == area as real && c.x + c.z == 1.0 && c.y == 0.5 && c.w == 0.5
  {
    if area == 0 then Vec4(0.0, 0.0, 0.0, 0.25)
    else if area == 63 then Vec4(0.0, 0.75, 1.0, 0.25)
    else Vec4(area as real / 255.0, 0.5, (255 - area) as real / 255.0, 0.5)
  }

  class EguiDebugDraw {
    var lines: seq<Line>
    var points: seq<Point>
    var quads: seq<Quad>
    var currentMode: int

    function Snapshot(): Buffers
      reads this
    {
      Buffers(lines, points, quads, currentMode)
    }

    /** `new`: empty buffers, mode 0. */
    constructor ()
      ensures Snapshot() == Buffers([], [], [], 0)
    {
      lines, points, quads, currentMode := [], [], [], 0;
    }

    /** `clear`: empties the buffers and keeps the mode. */
    method Clear()
      modifies this
      ensures Snapshot() == old(Snapshot()).(lines := [], points := [], quads := [])
    {
      lines, points, quads := [], [], [];
    }

    /** `begin`: records the mode; the size is not used. */
    method Begin(prim: int, size: real)
      modifies this
      ensures Snapshot() == old(Snapshot()).(mode := prim)
    {
      currentMode := prim;
    }

    /** `vertex`. */
    method Vertex(pos: Vec3, color: Vec4)
      modifies this
      ensures Snapshot() == VertexStep(old(Snapshot()), pos, color)
    {
      var col := ToColor32(color);
      if currentMode == DD.DrawLines {
        if |lines| % 2 == 1 {
          var last := lines[|lines| - 1];
          lines := lines[..|lines| - 1] + [last.(p1 := pos)];
        } else {
          lines := lines + [Line(pos, pos, col)];
        }
      } else if currentMode == DD.DrawPoints {
        points := points + [Point(pos, col)];
      } else if currentMode == DD.DrawQuads {
        if |quads| == 0 || quads[|quads| - 1].color != col {
          quads := quads + [Quad(pos, pos, pos, pos, col)];
        } else {
          var quad := quads[|quads| - 1];
          var corner := |points| % 4;
          if corner == 0 {
            quad := quad.(c0 := pos);
          } else if corner == 1 {
            quad := quad.(c1 := pos);
          } else if corner == 2 {
            quad := quad.(c2 := pos);
          } else {
            quad := quad.(c3 := pos);
          }
          quads := quads[..|quads| - 1] + [quad];
        }
      }
    }

    /** `end`: nothing to do. */
    method End()
      ensures Snapshot() == old(Snapshot())
    {
    }

    /** The calls a renderer makes on this sink, one after the other. */
    method Replay(calls: seq<DD.Call>)
      modifies this
      ensures Snapshot() == Run(old(Snapshot()), calls)
    {
      for n := 0 to |calls|
        invariant Snapshot() == Run(old(Snapshot()), calls[..n])
      {
        assert calls[..n + 1][..n] == calls[..n];
        var call := calls[n];
        if call.Begin? {
          Begin(call.prim, call.size);
        } else if call.Vertex? {
          Vertex(call.pos, call.color);
        } else {
          End();
        }
      }
      assert calls[..|calls|] == calls;
    }
  }

  /** The sample navigation mesh the viewer builds: four triangles around
      an apex, the third of them in the null area. */
  const SampleMesh := DD.PolyMesh(
    [Vec3(0.0, 0.0, 0.0), Vec3(1.0, 0.0, 0.0), Vec3(1.0, 0.0, 1.0), Vec3(0.0, 0.0, 1.0), Vec3(0.5, 1.0, 0.5)],
    [[0, 1, 4, DD.MeshNullIdx], [1, 2, 4, DD.MeshNullIdx], [2, 3, 4, DD.MeshNullIdx], [3, 0, 4, DD.MeshNullIdx]],
    [DD.WalkableArea, DD.WalkableArea, DD.NullArea, DD.WalkableArea],
    4, 1.0, 1.0, Vec3(-1.0, -1.0, -1.0))

  /** What the sink holds after the viewer draws `mesh`. */
  function Drawn(mesh: DD.PolyMesh): Buffers
    requires DD.WellFormed(mesh)
  {
    Run(Buffers([], [], [], 0), DD.PolyMeshTrace(mesh, AreaToCol))
  }

  class MeshViewerApp {
    const mesh: DD.PolyMesh
    const debugDraw: EguiDebugDraw

    /** `new`: the sample mesh and a fresh sink. */
    constructor ()
      ensures mesh == SampleMesh && DD.WellFormed(mesh)
      ensures fresh(debugDraw) && debugDraw.Snapshot() == Buffers([], [], [], 0)
    {
      mesh := SampleMesh;
      debugDraw := new EguiDebugDraw();
      SampleMeshWellFormed();
    }

    /** `draw_mesh`: clears the sink, then draws the mesh on it; afterwards
        the sink holds that drawing only, whatever it held before. */
    method DrawMesh()
      requires DD.WellFormed(mesh)
      modifies debugDraw
      ensures debugDraw.Snapshot() == Drawn(mesh)
    {
      debugDraw.Clear();
      var trace, _ := DD.DrawPolyMesh(mesh, AreaToCol);
      debugDraw.Replay(trace);
      DrawnFromAnyMode(mesh, old(debugDraw.currentMode));
    }
  }

  // ---------------------------------------------------------------------
  // One call

  /** The rules of `vertex`, mode by mode: POINTS appends one point; LINES
      opens a segment on an even length and otherwise only moves the open
      segment's end; QUADS adds a quad exactly when the buffer is empty or
      the colour changes; any other mode changes nothing. */
  lemma VertexByMode(b: Buffers, pos: Vec3, color: Vec4)
    ensures var r := VertexStep(b, pos, color);
      && r.mode == b.mode
      && (b.mode == DD.DrawPoints ==>
            r == b.(points := b.points + [Point(pos, ToColor32(color))]))
      && (b.mode == DD.DrawLines ==>
            && r.points == b.points && r.quads == b.quads
            && (|b.lines| % 2 == 0 ==> r.lines == b.lines + [Line(pos, pos, ToColor32(color))])
            && (|b.lines| % 2 == 1 ==>
                  && |r.lines| == |b.lines| && r.lines[..|b.lines| - 1] == b.lines[..|b.lines| - 1]
                  && r.lines[|b.lines| - 1] == b.lines[|b.lines| - 1].(p1 := pos)))
      && (b.mode == DD.DrawQuads ==>
            && r.points == b.points && r.lines == b.lines
            && (|r.quads| == |b.quads| + 1 <==> b.quads == [] || b.quads[|b.quads| - 1].color != ToColor32(color))
            && (|r.quads| == |b.quads| + 1 ==> r.quads[..|b.quads|] == b.quads)
            && (|r.quads| != |b.quads| + 1 ==>
                  |r.quads| == |b.quads| && r.quads[..|b.quads| - 1] == b.quads[..|b.quads| - 1])
            && r.quads[|r.quads| - 1].color == ToColor32(color)
            && (b.quads == [] || b.quads[|b.quads| - 1].color != ToColor32(color) ==>
                  r.quads == b.quads + [Quad(pos, pos, pos, pos, ToColor32(color))])
            && (b.quads != [] && b.quads[|b.quads| - 1].color == ToColor32(color) ==>
                  && |r.quads| == |b.quads|
                  && MovesCorner(b.quads[|b.quads| - 1], r.quads[|b.quads| - 1], |b.points| % 4, pos)))
      && (b.mode != DD.DrawPoints && b.mode != DD.DrawLines && b.mode != DD.DrawQuads ==> r == b)
  {
  }

  // ---------------------------------------------------------------------
  // Runs of calls

  lemma {:induction false} RunConcat(b: Buffers, xs: seq<DD.Call>, ys: seq<DD.Call>)
    ensures Run(b, xs + ys) == Run(Run(b, xs), ys)
    decreases |ys|
  {
    if ys == [] {
      assert xs + ys == xs;
    } else {
      assert (xs + ys)[..|xs + ys| - 1] == xs + ys[..|ys| - 1];
      RunConcat(b, xs, ys[..|ys| - 1]);
    }
  }

  /** A batch sets the mode and then runs its vertices. */
  lemma RunBracket(b: Buffers, prim: int, size: real, body: seq<DD.Call>)
    ensures Run(b, DD.Bracket(prim, size, body)) == Run(b.(mode := prim), body)
  {
    var open := [DD.Begin(prim, size)];
    assert DD.Bracket(prim, size, body) == (open + body) + [DD.End];
    RunConcat(b, open + body, [DD.End]);
    RunConcat(b, open, body);
    assert open[..0] == [];
  }

  /** Starting from a buffer of at most one segment, the buffer never holds
      more than one: a second vertex only closes the open segment. */
  lemma {:induction false} RunKeepsOneLine(b: Buffers, calls: seq<DD.Call>)
    requires |b.lines| <= 1
    ensures |Run(b, calls).lines| <= 1
  {
    if calls != [] {
      RunKeepsOneLine(b, calls[..|calls| - 1]);
    }
  }

  /** Neighbouring quads have different colours. */
  predicate ColoursAlternate(quads: seq<Quad>) {
    forall i :: 0 < i < |quads| ==> quads[i - 1].color != quads[i].color
  }

  /** Every call keeps neighbouring quads of different colours. */
  lemma {:induction false} RunKeepsColoursAlternating(b: Buffers, calls: seq<DD.Call>)
    requires ColoursAlternate(b.quads)
    ensures ColoursAlternate(Run(b, calls).quads)
  {
    if calls != [] {
      RunKeepsColoursAlternating(b, calls[..|calls| - 1]);
      var before := Run(b, calls[..|calls| - 1]);
      var after := Run(b, calls);
      if |after.quads| == |before.quads| && before.quads != [] {
        assert forall i :: 0 <= i < |after.quads| ==> after.quads[i].color == before.quads[i].color;
      }
    }
  }

  /** Quads whose corners 1, 2 and 3 coincide. */
  predicate Collapsed(quads: seq<Quad>) {
    forall q :: q in quads ==> q.c1 == q.c2 == q.c3
  }

  /** A QUADS batch run while the point buffer's length is a multiple of
      four (empty, after `clear`) only ever moves corner 0, so corners 1 to 3
      of every quad stay equal. The quads before the last one it finds are
      kept; it adds at most one quad per vertex; and after a vertex the last
      quad has that vertex in corner 0 and in its colour. Lines and points
      are untouched. */
  lemma {:induction false} QuadsBatch(b: Buffers, body: seq<DD.Call>)
    requires b.mode == DD.DrawQuads && |b.points| % 4 == 0 && DD.AllVertices(body)
    requires Collapsed(b.quads)
    ensures var r := Run(b, body);
      && r.lines == b.lines && r.points == b.points && r.mode == b.mode
      && Collapsed(r.quads)
      && |b.quads| <= |r.quads| <= |b.quads| + |body|
      && (b.quads != [] ==> r.quads[..|b.quads| - 1] == b.quads[..|b.quads| - 1])
      && (body != [] ==>
            var last := body[|body| - 1];
            && r.quads != []
            && r.quads[|r.quads| - 1].c0 == last.pos
            && r.quads[|r.quads| - 1].color == ToColor32(last.color))
  {
    if body != [] {
      var init := body[..|body| - 1];
      assert forall c :: c in init ==> c in body;
      assert body[|body| - 1] in body;
      QuadsBatch(b, init);
      var before := Run(b, init);
      var after := Run(b, body);
      forall q | q in after.quads
        ensures q.c1 == q.c2 == q.c3
      {
        var i :| 0 <= i < |after.quads| && after.quads[i] == q;
        if i < |before.quads| && i < |after.quads| - 1 {
          assert q == before.quads[i];
        }
      }
      if b.quads != [] {
        var n := |b.quads| - 1;
        assert after.quads[..n] == before.quads[..n] by {
          assert forall i :: 0 <= i < n ==> after.quads[i] == before.quads[i];
        }
      }
    }
  }

  /** A LINES batch on an empty line buffer leaves one segment from its
      first to its last vertex, in the first vertex's colour, and nothing
      else. */
  lemma {:induction false} LinesBatch(b: Buffers, body: seq<DD.Call>)
    requires b.mode == DD.DrawLines && b.lines == [] && DD.AllVertices(body)
    ensures var r := Run(b, body);
      && r.points == b.points && r.quads == b.quads && r.mode == b.mode
      && r.lines == if body == [] then [] else [Line(body[0].pos, body[|body| - 1].pos, ToColor32(body[0].color))]
  {
    if body != [] {
      var init := body[..|body| - 1];
      assert forall c :: c in init ==> c in body;
      assert body[|body| - 1] in body;
      LinesBatch(b, init);
      if init != [] {
        assert init[0] == body[0];
      }
    }
  }

  /** A POINTS batch appends one point per vertex, in order, and touches
      nothing else. */
  lemma {:induction false} PointsBatch(b: Buffers, body: seq<DD.Call>)
    requires b.mode == DD.DrawPoints && DD.AllVertices(body)
    ensures var r := Run(b, body);
      && r.lines == b.lines && r.quads == b.quads && r.mode == b.mode
      && |r.points| == |b.points| + |body| && r.points[..|b.points|] == b.points
      && forall i :: 0 <= i < |body| ==>
           r.points[|b.points| + i] == Point(body[i].pos, ToColor32(body[i].color))
  {
    if body != [] {
      var init := body[..|body| - 1];
      assert forall c :: c in init ==> c in body;
      assert body[|body| - 1] in body;
      PointsBatch(b, init);
      var before := Run(b, init);
      assert forall i :: 0 <= i < |init| ==> init[i] == body[i];
    }
  }

  // ---------------------------------------------------------------------
  // The sink's palette

  /** The sink's palette gives null and walkable polygons the renderer's
      own colours, so every polygon is filled in `AreaToCol` of its area. */
  lemma FillUsesSinkPalette(area: uint8)
    ensures DD.FillColor(area, AreaToCol) == AreaToCol(area)
  {
  }

  /** Stored as bytes, a custom area `a` becomes (a, 127, 255 - a, 127), the
      walkable area (0, 191, 255, 63) and the null area (0, 0, 0, 63). */
  lemma StoredAreaColours(area: uint8)
    ensures area == 0 ==> ToColor32(AreaToCol(area)) == Color32(0, 0, 0, 63)
    ensures area == 63 ==> ToColor32(AreaToCol(area)) == Color32(0, 191, 255, 63)
    ensures area != 0 && area != 63 ==>
      ToColor32(AreaToCol(area)) == Color32(area, 127, 255 - area, 127)
  {
    if area != 0 && area != 63 {
      assert (area as real / 255.0) * 255.0 == area as real;
      assert ((255 - area) as real / 255.0) * 255.0 == (255 - area) as real;
    }
  }

  /** Two polygons get the same stored fill colour exactly when they have
      the same area, so in QUADS mode a new quad starts exactly where the
      area changes. */
  lemma StoredFillIdentifiesArea(a1: uint8, a2: uint8)
    ensures ToColor32(DD.FillColor(a1, AreaToCol)) == ToColor32(DD.FillColor(a2, AreaToCol)) <==> a1 == a2
  {
    FillUsesSinkPalette(a1);
    FillUsesSinkPalette(a2);
    StoredAreaColours(a1);
    StoredAreaColours(a2);
  }

  // ---------------------------------------------------------------------
  // draw_mesh

  /** The viewer's sample mesh satisfies what the renderer demands. */
  lemma SampleMeshWellFormed()
    ensures DD.WellFormed(SampleMesh)
  {
    var polys := SampleMesh.polys;
    forall i | 0 <= i < |polys|
      ensures DD.EdgeSafe(polys[i], SampleMesh.nvp)
    {
      var poly := polys[i];
      assert DD.Stops(poly, 4, 3);
      assert !DD.Stops(poly, 4, 0) && !DD.Stops(poly, 4, 1) && !DD.Stops(poly, 4, 2);
      assert DD.ValidSlots(poly, 4) == 3;
    }
  }

  /** After drawing, the sink's content does not depend on the mode it was
      left in, since the trace begins by setting it. */
  lemma DrawnFromAnyMode(mesh: DD.PolyMesh, mode: int)
    requires DD.WellFormed(mesh)
    ensures Run(Buffers([], [], [], mode), DD.PolyMeshTrace(mesh, AreaToCol)) == Drawn(mesh)
  {
    var fill := DD.Bracket(DD.DrawQuads, 1.0, DD.FillPass(mesh, AreaToCol, |mesh.polys|));
    var rest := DD.Bracket(DD.DrawLines, 2.5, DD.BoundaryPass(mesh, |mesh.polys|))
      + DD.Bracket(DD.DrawPoints, 3.0, DD.PointPass(mesh, |mesh.verts|));
    assert DD.PolyMeshTrace(mesh, AreaToCol) == fill + rest;
    RunConcat(Buffers([], [], [], mode), fill, rest);
    RunConcat(Buffers([], [], [], 0), fill, rest);
    RunBracket(Buffers([], [], [], mode), DD.DrawQuads, 1.0, DD.FillPass(mesh, AreaToCol, |mesh.polys|));
    RunBracket(Buffers([], [], [], 0), DD.DrawQuads, 1.0, DD.FillPass(mesh, AreaToCol, |mesh.polys|));
  }

  /** The three batches of the trace the sink replays. */
  function FillBatch(mesh: DD.PolyMesh): seq<DD.Call>
    requires DD.WellFormed(mesh)
  {
    DD.Bracket(DD.DrawQuads, 1.0, DD.FillPass(mesh, AreaToCol, |mesh.polys|))
  }

  function EdgeBatch(mesh: DD.PolyMesh): seq<DD.Call>
    requires DD.WellFormed(mesh)
  {
    DD.Bracket(DD.DrawLines, 2.5, DD.BoundaryPass(mesh, |mesh.polys|))
  }

  function PointBatch(mesh: DD.PolyMesh): seq<DD.Call> {
    DD.Bracket(DD.DrawPoints, 3.0, DD.PointPass(mesh, |mesh.verts|))
  }

  lemma DrawnInStages(mesh: DD.PolyMesh)
    requires DD.WellFormed(mesh)
    ensures Drawn(mesh) == Run(Run(Run(Buffers([], [], [], 0), FillBatch(mesh)), EdgeBatch(mesh)), PointBatch(mesh))
  {
    var b0 := Buffers([], [], [], 0);
    assert DD.PolyMeshTrace(mesh, AreaToCol) == (FillBatch(mesh) + EdgeBatch(mesh)) + PointBatch(mesh);
    RunConcat(b0, FillBatch(mesh) + EdgeBatch(mesh), PointBatch(mesh));
    RunConcat(b0, FillBatch(mesh), EdgeBatch(mesh));
  }

  /** After the fill batch on cleared buffers. */
  lemma FillStage(mesh: DD.PolyMesh)
    requires DD.WellFormed(mesh)
    ensures var b1 := Run(Buffers([], [], [], 0), FillBatch(mesh));
      var fill := DD.FillPass(mesh, AreaToCol, |mesh.polys|);
      && b1.lines == [] && b1.points == []
      && ColoursAlternate(b1.quads) && Collapsed(b1.quads)
      && |b1.quads| <= |fill| && (b1.quads == [] <==> fill == [])
  {
    var b0 := Buffers([], [], [], DD.DrawQuads);
    var fill := DD.FillPass(mesh, AreaToCol, |mesh.polys|);
    DD.FillPassVertices(mesh, AreaToCol, |mesh.polys|);
    RunBracket(Buffers([], [], [], 0), DD.DrawQuads, 1.0, fill);
    QuadsBatch(b0, fill);
    RunKeepsColoursAlternating(b0, fill);
  }

  /** After the boundary batch on an empty line buffer. */
  lemma EdgeStage(b: Buffers, mesh: DD.PolyMesh)
    requires DD.WellFormed(mesh) && b.lines == []
    ensures var b2 := Run(b, EdgeBatch(mesh));
      var edges := DD.BoundaryPass(mesh, |mesh.polys|);
      && b2.points == b.points && b2.quads == b.quads
      && DD.VerticesOfColor(edges, DD.BoundaryColor)
      && b2.lines == (if edges == [] then [] else [Line(edges[0].pos, edges[|edges| - 1].pos, ToColor32(DD.BoundaryColor))])
  {
    var edges := DD.BoundaryPass(mesh, |mesh.polys|);
    DD.BoundaryPassColored(mesh, |mesh.polys|);
    RunBracket(b, DD.DrawLines, 2.5, edges);
    LinesBatch(b.(mode := DD.DrawLines), edges);
    if edges != [] {
      assert edges[0] in edges;
    }
  }

  /** After the point batch on an empty point buffer. */
  lemma PointStage(b: Buffers, mesh: DD.PolyMesh)
    requires b.points == []
    ensures var b3 := Run(b, PointBatch(mesh));
      && b3.lines == b.lines && b3.quads == b.quads && b3.mode == DD.DrawPoints
      && |b3.points| == |mesh.verts|
      && forall i :: 0 <= i < |mesh.verts| ==>
           b3.points[i] == Point(DD.EdgePos(mesh, mesh.verts[i]), ToColor32(DD.VertexColor))
  {
    var pts := DD.PointPass(mesh, |mesh.verts|);
    assert DD.AllVertices(pts) by {
      DD.PointPassColored(mesh, |mesh.verts|);
    }
    var r := Run(b.(mode := DD.DrawPoints), pts);
    RunBracket(b, DD.DrawPoints, 3.0, pts);
    PointsBatch(b.(mode := DD.DrawPoints), pts);
    DD.PointsOnePerVertex(mesh, |mesh.verts|);
    forall i | 0 <= i < |mesh.verts|
      ensures r.points[i] == Point(DD.EdgePos(mesh, mesh.verts[i]), ToColor32(DD.VertexColor))
    {
      assert pts[i] == DD.Vertex(DD.EdgePos(mesh, mesh.verts[i]), DD.VertexColor);
      assert r.points[|b.points| + i] == Point(pts[i].pos, ToColor32(pts[i].color));
    }
  }

  /** What the sink holds after `draw_mesh`: the last mode is POINTS; one
      point per mesh vertex, in order, in the vertex colour; at most one
      line segment, from the first to the last boundary vertex; and quads
      whose neighbours differ in colour, whose corners 1 to 3 coincide, at
      most one per fill vertex and some exactly when there is a fill. */
  lemma DrawnContents(mesh: DD.PolyMesh)
    requires DD.WellFormed(mesh)
    ensures var d := Drawn(mesh);
      var fill, edges := DD.FillPass(mesh, AreaToCol, |mesh.polys|), DD.BoundaryPass(mesh, |mesh.polys|);
      && d.mode == DD.DrawPoints
      && |d.points| == |mesh.verts|
      && (forall i :: 0 <= i < |mesh.verts| ==>
            d.points[i] == Point(DD.EdgePos(mesh, mesh.verts[i]), ToColor32(DD.VertexColor)))
      && DD.VerticesOfColor(edges, DD.BoundaryColor)
      && d.lines == (if edges == [] then [] else [Line(edges[0].pos, edges[|edges| - 1].pos, ToColor32(DD.BoundaryColor))])
      && ColoursAlternate(d.quads) && Collapsed(d.quads)
      && |d.quads| <= |fill| && (d.quads == [] <==> fill == [])
  {
    DrawnInStages(mesh);
    var b1 := Run(Buffers([], [], [], 0), FillBatch(mesh));
    FillStage(mesh);
    var b2 := Run(b1, EdgeBatch(mesh));
    EdgeStage(b1, mesh);
    PointStage(b2, mesh);
  }
}
