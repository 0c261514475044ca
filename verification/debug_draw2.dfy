/** The slope-coloured triangle renderer: draws a flat triangle list with one
    normal per triangle, shading each face by its normal, tinting faces too
    steep to walk on, and giving each vertex texture coordinates projected
    along the normal's dominant axis. The sink is modelled by the sequence of
    calls made on it. */
module SlopeDraw {
  import opened Geometry

  /** The one primitive kind this renderer uses (its own protocol's value). */
  const DrawTris: int := 2

  /** Colour steep faces are blended toward, and by how much. */
  const Unwalkable := Vec4(0.75, 0.5, 0.0, 1.0)
  const BlendFactor: real := 64.0 / 255.0

  /** A triangle mesh: vertices, a flat list of index triples, and normals
      indexed like `tris` (the normal of a triangle sits at its first slot). */
  datatype InputMesh = InputMesh(verts: seq<Vec3>, tris: seq<int>, normals: seq<Vec3>)

  datatype Uv = Uv(u: real, v: real)

  /** One call on this renderer's drawing sink. */
  datatype Call =
    | Begin(prim: int, size: real)
    | End
    | Vertex(pos: Vec3, color: Vec4)
    | VertexUv(pos: Vec3, color: Vec4, uv: Uv)
    | Texture(on: bool)

  /** The renderer returns at once on such a mesh. */
  predicate IsEmpty(mesh: InputMesh) {
    mesh.verts == [] || mesh.tris == [] || mesh.normals == []
  }

  /** What the renderer demands to stay in bounds once it does not return
      early: whole triangles, indices into `verts`, and a normal at every
      first slot. */
  predicate WellFormed(mesh: InputMesh) {
    !IsEmpty(mesh) ==>
      && |mesh.tris| % 3 == 0
      && |mesh.tris| < |mesh.normals| + 3
      && forall s :: 0 <= s < |mesh.tris| ==> 0 <= mesh.tris[s] < |mesh.verts|
  }

  // ---------------------------------------------------------------------
  // Colour

  /** `x` lies between `p` and `q`, whichever is larger. */
  predicate Between(p: real, q: real, x: real) {
    (p <= x <= q) || (q <= x <= p)
  }

  /** `a.lerp(b, t)`, channel by channel: `a` at t = 0 and `b` at t = 1. */
  function Lerp(a: Vec4, b: Vec4, t: real): (r: Vec4)
    ensures t == 0.0 ==> r == a
    ensures t == 1.0 ==> r == b
  {
    Vec4(a.x + (b.x - a.x) * t, a.y + (b.y - a.y) * t, a.z + (b.z - a.z) * t, a.w + (b.w - a.w) * t)
  }

  lemma ChannelBetween(p: real, q: real, t: real)
    requires 0.0 <= t <= 1.0
    ensures Between(p, q, p + (q - p) * t)
  {
    var d := q - p;
    assert d * t - d == d * (t - 1.0);
    if d >= 0.0 {
      assert d * t >= 0.0;
      assert d * (t - 1.0) <= 0.0;
    } else {
      assert d * t <= 0.0;
      assert d * (t - 1.0) >= 0.0;
    }
  }

  /** For t in [0, 1] every channel of the blend lies between those of its
      two ends: the steep tint never leaves the range of its two colours. */
  lemma LerpBetween(a: Vec4, b: Vec4, t: real)
    requires 0.0 <= t <= 1.0
    ensures var r := Lerp(a, b, t);
      Between(a.x, b.x, r.x) && Between(a.y, b.y, r.y) && Between(a.z, b.z, r.z) && Between(a.w, b.w, r.w)
  {
    ChannelBetween(a.x, b.x, t);
    ChannelBetween(a.y, b.y, t);
    ChannelBetween(a.z, b.z, t);
    ChannelBetween(a.w, b.w, t);
  }

  /** Grey level of a face: `((2 + n.x + n.y) / 4 * 220) as u8`. */
  function Shade(n: Vec3): uint8 {
    SaturatingToUint8((2.0 + n.x + n.y) / 4.0 * 220.0)
  }

  /** The grey base colour of a face. */
  function BaseColor(n: Vec3): Vec4 {
    var a := Shade(n) as real / 255.0;
    Vec4(a, a, a, 1.0)
  }

  /** The base colour is an opaque grey whose channels, scaled back to
      bytes, give the shade exactly. */
  lemma BaseColorIsGrey(n: Vec3)
    ensures var c := BaseColor(n);
      && c.x == c.y == c.z && c.w == 1.0
      && 0.0 <= c.x <= 1.0
      && c.x * 255.0 == Shade(n) as real
  {
  }

  /** Face colour: the base colour, blended toward `Unwalkable` when the
      normal's y component is below the walkable threshold. */
  function SlopeColor(n: Vec3, walkableThr: real): Vec4 {
    if n.y < walkableThr then Lerp(BaseColor(n), Unwalkable, BlendFactor) else BaseColor(n)
  }

  /** A face keeps its grey base colour exactly when it is walkable. */
  lemma SteepIffTinted(n: Vec3, walkableThr: real)
    ensures SlopeColor(n, walkableThr) == BaseColor(n) <==> n.y >= walkableThr
  {
    BaseColorIsGrey(n);
    if n.y < walkableThr {
      var b := BaseColor(n);
      var c := Lerp(b, Unwalkable, BlendFactor);
      assert c.x - c.y == 0.25 * BlendFactor;
    }
  }

  // ---------------------------------------------------------------------
  // Texture axes

  /** Index of the normal's largest component by magnitude, ties going to
      the lower index. */
  function DominantAxis(n: Vec3): (ax: nat)
    ensures ax < 3
  {
    var ax := if Abs(n.y) > Abs(n.x) then 1 else 0;
    if Abs(n.z) > Abs(n.At(ax)) then 2 else ax
  }

  /** The dominant axis has the largest magnitude, and every lower axis a
      strictly smaller one. */
  lemma DominantAxisIsLargest(n: Vec3)
    ensures var ax := DominantAxis(n);
      && (forall i :: 0 <= i < 3 ==> Abs(n.At(i)) <= Abs(n.At(ax)))
      && (forall i :: 0 <= i < ax ==> Abs(n.At(i)) < Abs(n.At(ax)))
  {
  }

  /** `(1 << ax) & 3`. */
  function NextAxis(ax: nat): nat
    requires ax < 3
  {
    (((1 as bv8) << ax) & 3) as nat
  }

  /** The bit trick is "+1 mod 3" on every axis, including axis 2 (4 & 3 == 0). */
  lemma NextAxisIsSuccessor(ax: nat)
    requires ax < 3
    ensures NextAxis(ax) == (ax + 1) % 3
  {
    if ax == 0 {
      assert ((1 as bv8) << 0) & 3 == 1;
    } else if ax == 1 {
      assert ((1 as bv8) << 1) & 3 == 2;
    } else {
      assert ((1 as bv8) << 2) & 3 == 0;
    }
  }

  /** The two texture axes are distinct and both differ from the dominant axis. */
  lemma TextureAxesDistinct(d: nat)
    requires d < 3
    ensures NextAxis(d) < 3 && NextAxis(NextAxis(d)) < 3
    ensures NextAxis(d) != d && NextAxis(NextAxis(d)) != d && NextAxis(d) != NextAxis(NextAxis(d))
  {
    NextAxisIsSuccessor(d);
    NextAxisIsSuccessor(NextAxis(d));
  }

  function TexCoord(v: Vec3, ax: nat, ay: nat, scale: real): Uv
    requires ax < 3 && ay < 3
  {
    Uv(v.At(ax) * scale, v.At(ay) * scale)
  }

  /** With a non-zero scale, two points get the same texture coordinate
      along the axes that follow `d` exactly when they agree on those two
      axes: the uv projects a point along axis `d` and nothing else. */
  lemma TexCoordProjects(v: Vec3, w: Vec3, d: nat, scale: real)
    requires d < 3 && scale != 0.0
    ensures var ax, ay := (d + 1) % 3, (d + 2) % 3;
      TexCoord(v, ax, ay, scale) == TexCoord(w, ax, ay, scale) <==> v.At(ax) == w.At(ax) && v.At(ay) == w.At(ay)
  {
    var ax, ay := (d + 1) % 3, (d + 2) % 3;
    if TexCoord(v, ax, ay, scale) == TexCoord(w, ax, ay, scale) {
      ScaleCancels(v.At(ax), w.At(ax), scale);
      ScaleCancels(v.At(ay), w.At(ay), scale);
    }
  }

  lemma ScaleCancels(x: real, y: real, scale: real)
    requires scale != 0.0 && x * scale == y * scale
    ensures x == y
  {
    assert (x - y) * scale == 0.0;
  }

  // ---------------------------------------------------------------------
  // The calls

  /** The call for slot k: the vertex `verts[tris[k]]`, in the colour and
      along the texture axes of the normal at the first slot of its
      triangle. */
  function SlotCall(mesh: InputMesh, walkableThr: real, scale: real, k: nat): Call
    requires WellFormed(mesh) && !IsEmpty(mesh) && k < |mesh.tris|
  {
    var norm := mesh.normals[k - k % 3];
    var v := mesh.verts[mesh.tris[k]];
    var d := DominantAxis(norm);
    VertexUv(v, SlopeColor(norm, walkableThr), TexCoord(v, (d + 1) % 3, (d + 2) % 3, scale))
  }

  /** The vertex calls, one per slot of `tris`. */
  function Corners(mesh: InputMesh, walkableThr: real, scale: real): seq<Call>
    requires WellFormed(mesh) && !IsEmpty(mesh)
  {
    seq(|mesh.tris|, k requires 0 <= k < |mesh.tris| => SlotCall(mesh, walkableThr, scale, k))
  }

  /** The whole sequence of calls `du_debug_draw_tri_mesh_slope` makes. */
  function SlopeTrace(mesh: InputMesh, walkableThr: real, scale: real): seq<Call>
    requires WellFormed(mesh)
  {
    if IsEmpty(mesh) then []
    else [Texture(true), Begin(DrawTris, 1.0)] + Corners(mesh, walkableThr, scale) + [End, Texture(false)]
  }

  /** The face colour as the loop body computes it. */
  method FaceColor(norm: Vec3, walkableThr: real) returns (color: Vec4)
    ensures color == SlopeColor(norm, walkableThr)
  {
    var a := SaturatingToUint8((2.0 + norm.x + norm.y) / 4.0 * 220.0);
    var baseCol := Vec4(a as real / 255.0, a as real / 255.0, a as real / 255.0, 1.0);
    assert baseCol == BaseColor(norm);
    color := if norm.y < walkableThr then Lerp(baseCol, Unwalkable, 64.0 / 255.0) else baseCol;
  }

  /** The texture axes as the loop body computes them: the dominant axis,
      then the bit trick applied to it and again to the result. */
  method TextureAxes(norm: Vec3) returns (ax: nat, ay: nat)
    ensures ax < 3 && ay < 3
    ensures ax == NextAxis(DominantAxis(norm)) && ay == NextAxis(ax)
    ensures ax == (DominantAxis(norm) + 1) % 3 && ay == (DominantAxis(norm) + 2) % 3
  {
    ax := 0;
    if Abs(norm.y) > Abs(norm.At(ax)) {
      ax := 1;
    }
    if Abs(norm.z) > Abs(norm.At(ax)) {
      ax := 2;
    }
    assert ax == DominantAxis(norm);
    TextureAxesDistinct(ax);
    NextAxisIsSuccessor(ax);
    ax := (((1 as bv8) << ax) & 3) as nat;
    NextAxisIsSuccessor(ax);
    ay := (((1 as bv8) << ax) & 3) as nat;
  }

  /** Corner c of the triangle whose first slot is i takes the normal at i. */
  lemma SlotCallAt(mesh: InputMesh, walkableThr: real, scale: real, i: nat, c: nat)
    requires WellFormed(mesh) && !IsEmpty(mesh) && i % 3 == 0 && i < |mesh.tris| && c < 3
    ensures i + c < |mesh.tris| && i < |mesh.normals|
    ensures var norm := mesh.normals[i];
      var v := mesh.verts[mesh.tris[i + c]];
      var d := DominantAxis(norm);
      SlotCall(mesh, walkableThr, scale, i + c)
        == VertexUv(v, SlopeColor(norm, walkableThr), TexCoord(v, (d + 1) % 3, (d + 2) % 3, scale))
  {
    assert (i + c) % 3 == c;
  }

  /** The body of the triangle loop: the three textured vertices of the
      triangle at slots i, i + 1, i + 2. */
  method EmitTriangle(mesh: InputMesh, walkableThr: real, texScale: real, i: nat) returns (corners: seq<Call>)
    requires WellFormed(mesh) && !IsEmpty(mesh) && i % 3 == 0 && i < |mesh.tris|
    ensures i + 3 <= |mesh.tris|
    ensures corners == Corners(mesh, walkableThr, texScale)[i..i + 3]
  {
    var norm := mesh.normals[i];
    var color := FaceColor(norm, walkableThr);
    var va := mesh.verts[mesh.tris[i]];
    var vb := mesh.verts[mesh.tris[i + 1]];
    var vc := mesh.verts[mesh.tris[i + 2]];
    var ax, ay := TextureAxes(norm);
    corners := [
      VertexUv(va, color, TexCoord(va, ax, ay, texScale)),
      VertexUv(vb, color, TexCoord(vb, ax, ay, texScale)),
      VertexUv(vc, color, TexCoord(vc, ax, ay, texScale))];
    SlotCallAt(mesh, walkableThr, texScale, i, 0);
    SlotCallAt(mesh, walkableThr, texScale, i, 1);
    SlotCallAt(mesh, walkableThr, texScale, i, 2);
  }

  /** `du_debug_draw_tri_mesh_slope`, with the walkable threshold (the cosine
      of the walkable slope angle) given directly. */
  method DrawTriMeshSlope(mesh: InputMesh, walkableThr: real, texScale: real) returns (trace: seq<Call>)
    requires WellFormed(mesh)
    ensures trace == SlopeTrace(mesh, walkableThr, texScale)
  {
    if mesh.verts == [] || mesh.tris == [] || mesh.normals == [] {
      return [];
    }
    trace := [Texture(true), Begin(DrawTris, 1.0)];
    ghost var all := Corners(mesh, walkableThr, texScale);
    var i := 0;
    while i < |mesh.tris|
      invariant i % 3 == 0 && i <= |mesh.tris|
      invariant trace == [Texture(true), Begin(DrawTris, 1.0)] + all[..i]
    {
      var corners := EmitTriangle(mesh, walkableThr, texScale, i);
      assert all[..i + 3] == all[..i] + corners;
      trace := trace + corners;
      i := i + 3;
    }
    assert all[..i] == all;
    trace := trace + [End, Texture(false)];
  }

  // ---------------------------------------------------------------------
  // Properties of the trace

  /** An empty mesh produces no call at all; any other mesh produces
      texture on, one triangle batch with one textured vertex per slot, and
      texture off. */
  lemma SlopeTraceShape(mesh: InputMesh, walkableThr: real, scale: real)
    requires WellFormed(mesh)
    ensures var t := SlopeTrace(mesh, walkableThr, scale);
      && (IsEmpty(mesh) <==> t == [])
      && (!IsEmpty(mesh) ==>
            && |t| == |mesh.tris| + 4
            && t[0] == Texture(true) && t[1] == Begin(DrawTris, 1.0)
            && t[|t| - 2] == End && t[|t| - 1] == Texture(false)
            && forall k :: 2 <= k < |t| - 2 ==> t[k].VertexUv?)
  {
    if !IsEmpty(mesh) {
      var t := SlopeTrace(mesh, walkableThr, scale);
      var corners := Corners(mesh, walkableThr, scale);
      forall k | 2 <= k < |t| - 2
        ensures t[k].VertexUv?
      {
        assert t[k] == corners[k - 2];
      }
    }
  }

  /** Corner c of triangle t is drawn at the untransformed vertex
      `verts[tris[3t + c]]`, in the colour of the normal at slot 3t (the
      same for all three corners), with texture coordinates along the two
      axes that follow the normal's dominant axis. */
  lemma CornerVertex(mesh: InputMesh, walkableThr: real, scale: real, t: nat, c: nat)
    requires WellFormed(mesh) && !IsEmpty(mesh) && 3 * t + c < |mesh.tris| && c < 3
    ensures var trace := SlopeTrace(mesh, walkableThr, scale);
      var norm := mesh.normals[3 * t];
      var v := mesh.verts[mesh.tris[3 * t + c]];
      var d := DominantAxis(norm);
      && 3 * t + c + 2 < |trace|
      && trace[3 * t + c + 2] == VertexUv(v, SlopeColor(norm, walkableThr), TexCoord(v, (d + 1) % 3, (d + 2) % 3, scale))
  {
    assert (3 * t) % 3 == 0;
    SlotCallAt(mesh, walkableThr, scale, 3 * t, c);
    var trace := SlopeTrace(mesh, walkableThr, scale);
    assert trace[3 * t + c + 2] == Corners(mesh, walkableThr, scale)[3 * t + c];
  }
}
