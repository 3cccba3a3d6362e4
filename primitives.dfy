/**
 * Mesh generators: an axis-aligned cube or box made of six quads, and the
 * latitude/longitude grid of a UV sphere. Each generator pushes vertices,
 * normals, texture coordinates and triangle indices onto four growing
 * lists; the model keeps the lists as sequences and states where every
 * entry lands.
 */
module Primitives {
  import opened Vectors

  /** The four lists a generator hands to the model's constructor. */
  datatype Mesh = Mesh(verts: seq<Vec>, norms: seq<Vec>, uvs: seq<Vec>, indices: seq<int>)

  // ---------------------------------------------------------------------
  // Quads: cube and box
  // ---------------------------------------------------------------------

  /** One face of a cube or box: its normal and its four corners in order. */
  datatype FaceDef = FaceDef(n: Vec, v0: Vec, v1: Vec, v2: Vec, v3: Vec)

  predicate ValidFace(f: FaceDef)
  {
    |f.n| == 3 && |f.v0| == 3 && |f.v1| == 3 && |f.v2| == 3 && |f.v3| == 3
  }

  predicate ValidFaces(faces: seq<FaceDef>)
  {
    forall i :: 0 <= i < |faces| ==> ValidFace(faces[i])
  }

  function Corner(f: FaceDef, c: nat): Vec
    requires c < 4
  {
    [f.v0, f.v1, f.v2, f.v3][c]
  }

  /** A position: (x, y, z, 1). */
  function Point(v: Vec): (p: Vec)
    requires |v| == 3
    ensures |p| == 4 && p[..3] == v && p[3] == 1.0
  {
    [v[0], v[1], v[2], 1.0]
  }

  /** A direction: (x, y, z, 0). */
  function Direction(v: Vec): (d: Vec)
    requires |v| == 3
    ensures |d| == 4 && d[..3] == v && d[3] == 0.0
  {
    [v[0], v[1], v[2], 0.0]
  }

  /** The texture coordinates of corner c of every face: (0,0), (1,0), (1,1), (0,1). */
  function FaceUv(c: nat): Vec
    requires c < 4
  {
    [[0.0, 0.0], [1.0, 0.0], [1.0, 1.0], [0.0, 1.0]][c]
  }

  /** The corners of the two triangles of a face: (0, 1, 2) and (0, 2, 3). */
  function Fan(t: nat): (c: nat)
    requires t < 6
    ensures c < 4
  {
    [0, 1, 2, 0, 2, 3][t]
  }

  /** Where corner c of face f lands in the vertex lists. */
  function Slot(f: int, c: int): int
  {
    4 * f + c
  }

  /** Where entry t of the six indices of face f (or grid cell f) lands. */
  function Six(f: int, t: int): int
  {
    6 * f + t
  }

  /** One pass of the face loop: four vertices, normals and uvs, then six
      indices counted from the number of vertices already emitted. */
  function EmitFace(mesh: Mesh, f: FaceDef): Mesh
    requires ValidFace(f)
  {
    var base := |mesh.verts|;
    var n := Direction(f.n);
    Mesh(mesh.verts + [Point(f.v0), Point(f.v1), Point(f.v2), Point(f.v3)],
         mesh.norms + [n, n, n, n],
         mesh.uvs + [FaceUv(0), FaceUv(1), FaceUv(2), FaceUv(3)],
         mesh.indices + [base + 0, base + 1, base + 2, base + 0, base + 2, base + 3])
  }

  /** The lists after the face loop has run over the given faces. */
  function FaceMesh(faces: seq<FaceDef>): Mesh
    requires ValidFaces(faces)
    decreases |faces|
  {
    if |faces| == 0 then Mesh([], [], [], [])
    else EmitFace(FaceMesh(faces[..|faces| - 1]), faces[|faces| - 1])
  }

  /** Face f contributes vertices 4f .. 4f + 3, each the corner with w = 1,
      the face normal with w = 0 and the uv of its corner, and indices
      6f .. 6f + 5, the two triangles (4f, 4f+1, 4f+2), (4f, 4f+2, 4f+3).
      Every index is below the number of vertices emitted up to its face,
      so below the vertex count. */
  lemma FaceMeshLayout(faces: seq<FaceDef>)
    requires ValidFaces(faces)
    ensures var m, n := FaceMesh(faces), |faces|;
      && |m.verts| == 4 * n && |m.norms| == 4 * n && |m.uvs| == 4 * n && |m.indices| == 6 * n
      && (forall f, c :: 0 <= f < n && 0 <= c < 4 ==>
            && m.verts[Slot(f, c)] == Point(Corner(faces[f], c))
            && m.norms[Slot(f, c)] == Direction(faces[f].n)
            && m.uvs[Slot(f, c)] == FaceUv(c))
      && (forall f, t :: 0 <= f < n && 0 <= t < 6 ==>
            m.indices[Six(f, t)] == Slot(f, Fan(t)) && m.indices[Six(f, t)] < Slot(f + 1, 0))
      && (forall i :: 0 <= i < |m.indices| ==> 0 <= m.indices[i] < |m.verts|)
  {
    FaceVertexLayout(faces);
    FaceIndexLayout(faces);
  }

  /** The vertex, normal and uv lists of the face loop, face by face. */
  lemma {:induction false} FaceVertexLayout(faces: seq<FaceDef>)
    requires ValidFaces(faces)
    ensures var m, n := FaceMesh(faces), |faces|;
      && |m.verts| == 4 * n && |m.norms| == 4 * n && |m.uvs| == 4 * n
      && (forall f, c :: 0 <= f < n && 0 <= c < 4 ==>
            && m.verts[Slot(f, c)] == Point(Corner(faces[f], c))
            && m.norms[Slot(f, c)] == Direction(faces[f].n)
            && m.uvs[Slot(f, c)] == FaceUv(c))
  {
    var n := |faces|;
    if n > 0 {
      var init := faces[..n - 1];
      var prev := FaceMesh(init);
      var m := FaceMesh(faces);
      FaceVertexLayout(init);
      assert m == EmitFace(prev, faces[n - 1]);
      EmitFaceVertices(prev, faces[n - 1]);
      forall f, c | 0 <= f < n && 0 <= c < 4
        ensures m.verts[Slot(f, c)] == Point(Corner(faces[f], c))
        ensures m.norms[Slot(f, c)] == Direction(faces[f].n)
        ensures m.uvs[Slot(f, c)] == FaceUv(c)
      {
        if f < n - 1 {
          assert init[f] == faces[f];
          assert Slot(f, c) < 4 * (n - 1);
        } else {
          assert Slot(f, c) == |prev.verts| + c;
        }
      }
    }
  }

  /** One pass of the face loop keeps the vertices already emitted and
      appends the four corners of the face after them. */
  lemma EmitFaceVertices(mesh: Mesh, fd: FaceDef)
    requires ValidFace(fd) && |mesh.norms| == |mesh.verts| && |mesh.uvs| == |mesh.verts|
    ensures var m, k := EmitFace(mesh, fd), |mesh.verts|;
      && |m.verts| == k + 4 && |m.norms| == k + 4 && |m.uvs| == k + 4
      && (forall i :: 0 <= i < k ==> m.verts[i] == mesh.verts[i] && m.norms[i] == mesh.norms[i] && m.uvs[i] == mesh.uvs[i])
      && (forall c :: 0 <= c < 4 ==>
            m.verts[k + c] == Point(Corner(fd, c)) && m.norms[k + c] == Direction(fd.n) && m.uvs[k + c] == FaceUv(c))
  {
  }

  /** The index list of the face loop, face by face, with every index
      below the vertex count. */
  lemma {:induction false} FaceIndexLayout(faces: seq<FaceDef>)
    requires ValidFaces(faces)
    ensures var m, n := FaceMesh(faces), |faces|;
      && |m.verts| == 4 * n && |m.indices| == 6 * n
      && (forall f, t :: 0 <= f < n && 0 <= t < 6 ==>
            m.indices[Six(f, t)] == Slot(f, Fan(t)) && m.indices[Six(f, t)] < Slot(f + 1, 0))
      && (forall i :: 0 <= i < |m.indices| ==> 0 <= m.indices[i] < |m.verts|)
  {
    var n := |faces|;
    if n > 0 {
      var init := faces[..n - 1];
      var prev := FaceMesh(init);
      var m := FaceMesh(faces);
      FaceIndexLayout(init);
      assert m == EmitFace(prev, faces[n - 1]);
      EmitFaceIndices(prev, faces[n - 1]);
      forall f, t | 0 <= f < n && 0 <= t < 6
        ensures m.indices[Six(f, t)] == Slot(f, Fan(t))
      {
        if f < n - 1 {
          assert Six(f, t) < 6 * (n - 1);
        } else {
          assert Six(f, t) == |prev.indices| + t;
        }
      }
      forall i | 0 <= i < |m.indices|
        ensures 0 <= m.indices[i] < |m.verts|
      {
        if i >= |prev.indices| {
          assert m.indices[i] == |prev.verts| + Fan(i - |prev.indices|);
        }
      }
    }
  }

  /** One pass of the face loop keeps the indices already emitted and
      appends the face's two triangles, counted from the vertices emitted
      before it. */
  lemma EmitFaceIndices(mesh: Mesh, fd: FaceDef)
    requires ValidFace(fd)
    ensures var m, k, b := EmitFace(mesh, fd), |mesh.indices|, |mesh.verts|;
      && |m.indices| == k + 6 && |m.verts| == b + 4
      && (forall i :: 0 <= i < k ==> m.indices[i] == mesh.indices[i])
      && (forall t :: 0 <= t < 6 ==> m.indices[k + t] == b + Fan(t))
  {
  }

  /** The loop of `cube` and `box` over their face tables, pushing onto
      four lists. */
  method EmitFaces(faces: seq<FaceDef>) returns (mesh: Mesh)
    requires ValidFaces(faces)
    ensures mesh == FaceMesh(faces)
  {
    var verts, norms, uvs, indices := [], [], [], [];
    for i := 0 to |faces|
      invariant Mesh(verts, norms, uvs, indices) == FaceMesh(faces[..i])
    {
      assert faces[..i + 1][..i] == faces[..i];
      assert FaceMesh(faces[..i + 1]) == EmitFace(FaceMesh(faces[..i]), faces[i]);
      verts, norms, uvs, indices := PushFace(verts, norms, uvs, indices, faces[i]);
    }
    assert faces[..|faces|] == faces;
    mesh := Mesh(verts, norms, uvs, indices);
  }

  /** The body of the face loop: four vertices with their normal and uv,
      then the six indices of the face's two triangles. */
  method PushFace(verts: seq<Vec>, norms: seq<Vec>, uvs: seq<Vec>, indices: seq<int>, f: FaceDef)
    returns (verts': seq<Vec>, norms': seq<Vec>, uvs': seq<Vec>, indices': seq<int>)
    requires ValidFace(f)
    ensures Mesh(verts', norms', uvs', indices') == EmitFace(Mesh(verts, norms, uvs, indices), f)
  {
    var n := Direction(f.n);
    var uv00, uv10, uv11, uv01 := [0.0, 0.0], [1.0, 0.0], [1.0, 1.0], [0.0, 1.0];
    var base := |verts|;
    verts', norms', uvs', indices' := verts, norms, uvs, indices;
    verts' := verts' + [Point(f.v0)]; norms' := norms' + [n]; uvs' := uvs' + [uv00];
    verts' := verts' + [Point(f.v1)]; norms' := norms' + [n]; uvs' := uvs' + [uv10];
    verts' := verts' + [Point(f.v2)]; norms' := norms' + [n]; uvs' := uvs' + [uv11];
    verts' := verts' + [Point(f.v3)]; norms' := norms' + [n]; uvs' := uvs' + [uv01];
    indices' := indices' + [base + 0];
    indices' := indices' + [base + 1];
    indices' := indices' + [base + 2];
    indices' := indices' + [base + 0];
    indices' := indices' + [base + 2];
    indices' := indices' + [base + 3];
    assert verts' == verts + [Point(f.v0), Point(f.v1), Point(f.v2), Point(f.v3)];
    assert norms' == norms + [n, n, n, n];
    assert uvs' == uvs + [FaceUv(0), FaceUv(1), FaceUv(2), FaceUv(3)];
    assert indices' == indices + [base + 0, base + 1, base + 2, base + 0, base + 2, base + 3];
  }

  /** The face table of `cube`, with h half the edge length. */
  function CubeFaces(h: real): (faces: seq<FaceDef>)
    ensures |faces| == 6 && ValidFaces(faces)
    ensures forall f, c, k :: 0 <= f < 6 && 0 <= c < 4 && 0 <= k < 3 ==>
      && (Corner(faces[f], c)[k] == h || Corner(faces[f], c)[k] == -h)
      && (faces[f].n[k] != 0.0 ==> Corner(faces[f], c)[k] == h * faces[f].n[k])
  {
    [ FaceDef([0.0, 0.0, 1.0], [-h, -h, h], [h, -h, h], [h, h, h], [-h, h, h]),
      FaceDef([0.0, 0.0, -1.0], [h, -h, -h], [-h, -h, -h], [-h, h, -h], [h, h, -h]),
      FaceDef([0.0, 1.0, 0.0], [-h, h, h], [h, h, h], [h, h, -h], [-h, h, -h]),
      FaceDef([0.0, -1.0, 0.0], [-h, -h, -h], [h, -h, -h], [h, -h, h], [-h, -h, h]),
      FaceDef([1.0, 0.0, 0.0], [h, -h, h], [h, -h, -h], [h, h, -h], [h, h, h]),
      FaceDef([-1.0, 0.0, 0.0], [-h, -h, -h], [-h, -h, h], [-h, h, h], [-h, h, -h]) ]
  }

  /** The face table of `box`, built from the eight corners of [min, max]. */
  function BoxFaces(min: Vec, max: Vec): (faces: seq<FaceDef>)
    requires |min| == 3 && |max| == 3
    ensures |faces| == 6 && ValidFaces(faces)
    ensures forall f, c, k :: 0 <= f < 6 && 0 <= c < 4 && 0 <= k < 3 ==>
      && (Corner(faces[f], c)[k] == min[k] || Corner(faces[f], c)[k] == max[k])
      && (faces[f].n[k] == 1.0 ==> Corner(faces[f], c)[k] == max[k])
      && (faces[f].n[k] == -1.0 ==> Corner(faces[f], c)[k] == min[k])
  {
    var v000, v100, v110, v010 := [min[0], min[1], min[2]], [max[0], min[1], min[2]], [max[0], max[1], min[2]], [min[0], max[1], min[2]];
    var v001, v101, v111, v011 := [min[0], min[1], max[2]], [max[0], min[1], max[2]], [max[0], max[1], max[2]], [min[0], max[1], max[2]];
    [ FaceDef([0.0, 0.0, 1.0], v001, v101, v111, v011),
      FaceDef([0.0, 0.0, -1.0], v100, v000, v010, v110),
      FaceDef([0.0, 1.0, 0.0], v011, v111, v110, v010),
      FaceDef([0.0, -1.0, 0.0], v000, v100, v101, v001),
      FaceDef([1.0, 0.0, 0.0], v101, v100, v110, v111),
      FaceDef([-1.0, 0.0, 0.0], v000, v001, v011, v010) ]
  }

  /** `Primitives::cube(size)`: 24 vertices, normals and uvs and 36 indices,
      laid out face by face as FaceMeshLayout describes. */
  method Cube(size: real := 1.0) returns (mesh: Mesh)
    ensures mesh == FaceMesh(CubeFaces(size * 0.5))
    ensures |mesh.verts| == 24 && |mesh.norms| == 24 && |mesh.uvs| == 24 && |mesh.indices| == 36
  {
    var h := size * 0.5;
    mesh := EmitFaces(CubeFaces(h));
    FaceMeshLayout(CubeFaces(h));
  }

  /** `Primitives::box(min, max)`: the same layout over the box's faces. */
  method Box(min: Vec, max: Vec) returns (mesh: Mesh)
    requires |min| == 3 && |max| == 3
    ensures mesh == FaceMesh(BoxFaces(min, max))
    ensures |mesh.verts| == 24 && |mesh.norms| == 24 && |mesh.uvs| == 24 && |mesh.indices| == 36
  {
    mesh := EmitFaces(BoxFaces(min, max));
    FaceMeshLayout(BoxFaces(min, max));
  }

  /** `cube(size)` is `box((-h, -h, -h), (h, h, h))` with h = size / 2, list for list. */
  lemma CubeIsBox(size: real)
    ensures var h := size * 0.5;
      FaceMesh(CubeFaces(h)) == FaceMesh(BoxFaces([-h, -h, -h], [h, h, h]))
  {
    var h := size * 0.5;
    var cube, box := CubeFaces(h), BoxFaces([-h, -h, -h], [h, h, h]);
    forall i | 0 <= i < 6
      ensures cube[i] == box[i]
    {
    }
    assert cube == box;
  }

  // ---------------------------------------------------------------------
  // UV sphere
  // ---------------------------------------------------------------------

  /** Where grid vertex (lat, lon) lands: rows of lons + 1 vertices. */
  function Grid(lat: int, lon: int, lons: int): int
  {
    lat * (lons + 1) + lon
  }

  /** The number of the grid cell whose lower-left corner is (lat, lon). */
  function Cell(lat: int, lon: int, lons: int): int
  {
    lat * lons + lon
  }

  /** The texture coordinates of grid vertex (lat, lon): (lon / lons, 1 - lat / lats). */
  function SphereUv(lat: int, lon: int, lats: int, lons: int): Vec
    requires lats > 0 && lons > 0
  {
    [lon as real / lons as real, 1.0 - lat as real / lats as real]
  }

  /** The two triangles of cell (lat, lon): (a, b, a+1) and (a+1, b, b+1),
      where a is its corner and b the corner one row further. */
  function CellIndices(lat: int, lon: int, lons: int): seq<int>
  {
    var a := Grid(lat, lon, lons);
    var b := a + lons + 1;
    [a, b, a + 1, a + 1, b, b + 1]
  }

  /** Grid vertices already emitted come before vertex (lat, lon). */
  lemma GridBefore(a: int, b: int, lat: int, lon: int, lons: nat)
    requires 0 <= a && 0 <= b <= lons && 0 <= lon
    requires a < lat || (a == lat && b < lon)
    ensures 0 <= Grid(a, b, lons) < Grid(lat, lon, lons)
  {
    RowsAscend(a, lat, lons + 1);
  }

  /** Whole rows of width k: row a starts no later than row lat, and rows
      before lat end before it. */
  lemma RowsAscend(a: int, lat: int, k: nat)
    requires 0 <= a <= lat
    ensures 0 <= a * k <= lat * k
    ensures a < lat ==> a * k + k <= lat * k
  {
    var d := lat - a;
    assert lat * k == a * k + d * k;
    assert d * k >= 0;
    if a < lat {
      assert d * k >= k;
    }
  }

  /** The row after the last vertex of row lat starts row lat + 1. */
  lemma NextRow(lat: int, lons: int)
    ensures Grid(lat, lons + 1, lons) == Grid(lat + 1, 0, lons)
    ensures Cell(lat, lons, lons) == Cell(lat + 1, 0, lons)
  {
  }

  /** Cells already emitted come before cell (lat, lon). */
  lemma CellBefore(a: int, b: int, lat: int, lon: int, lons: nat)
    requires 0 <= a && 0 <= b < lons && 0 <= lon
    requires a < lat || (a == lat && b < lon)
    ensures 0 <= Cell(a, b, lons) < Cell(lat, lon, lons)
  {
    RowsAscend(a, lat, lons);
  }

  /** Every index of a cell of the lats x lons grid names one of its
      (lats + 1) * (lons + 1) vertices. */
  lemma CellIndicesInGrid(lat: int, lon: int, lats: int, lons: int)
    requires 0 <= lat < lats && 0 <= lon < lons
    ensures forall t :: 0 <= t < 6 ==> 0 <= CellIndices(lat, lon, lons)[t] < (lats + 1) * (lons + 1)
  {
    var k := lons + 1;
    RowsAscend(0, lat, k);
    RowsAscend(lat + 1, lats + 1, k);
    assert (lat + 1) * k == lat * k + k;
  }

  /** Both texture coordinates of a grid vertex lie in [0, 1]. */
  lemma SphereUvInUnitSquare(lat: int, lon: int, lats: int, lons: int)
    requires lats > 0 && lons > 0 && 0 <= lat <= lats && 0 <= lon <= lons
    ensures var uv := SphereUv(lat, lon, lats, lons);
      0.0 <= uv[0] <= 1.0 && 0.0 <= uv[1] <= 1.0
  {
    Fraction(lon as real, lons as real);
    Fraction(lat as real, lats as real);
  }

  lemma Fraction(k: real, n: real)
    requires 0.0 <= k <= n && n > 0.0
    ensures 0.0 <= k / n <= 1.0
  {
    assert k / n * n == k;
  }

  /** `Primitives::uv_sphere(longitudes, latitudes, radius)`. The point of
      the unit sphere at (u, v), computed in the source with sin and cos of
      v * pi and u * 2 pi, is the parameter `surface`. Longitudes are raised
      to at least 3 and latitudes to at least 2; grid vertex (lat, lon) gets
      the surface point scaled by the radius with w = 1, the surface point
      as its normal with w = 0, and uv (lon / lons, 1 - lat / lats); cell
      (lat, lon) gets the two triangles of CellIndices, and every index
      names a vertex. */
  method UvSphere(longitudes: int := 32, latitudes: int := 16, radius: real := 1.0, surface: (real, real) -> Vec) returns (mesh: Mesh)
    requires forall u, v :: |surface(u, v)| == 3
    ensures var lons, lats := Max(longitudes, 3), Max(latitudes, 2);
      && |mesh.verts| == (lats + 1) * (lons + 1) && |mesh.norms| == |mesh.verts| && |mesh.uvs| == |mesh.verts|
      && |mesh.indices| == 6 * (lats * lons)
      && RowsDone(mesh.verts, mesh.norms, mesh.uvs, lats + 1, 0, lats, lons, radius, surface)
      && CellsDone(mesh.indices, lats, 0, lons)
      && (forall i :: 0 <= i < |mesh.indices| ==> 0 <= mesh.indices[i] < |mesh.verts|)
  {
    var lons, lats := longitudes, latitudes;
    if lons < 3 { lons := 3; }
    if lats < 2 { lats := 2; }
    var verts, norms, uvs := SphereVertices(lats, lons, radius, surface);
    var indices := SphereIndices(lats, lons);
    mesh := Mesh(verts, norms, uvs, indices);
  }

  /** The first loop nest of `uv_sphere`: one vertex, normal and uv per
      grid point, row by row. */
  method SphereVertices(lats: int, lons: int, radius: real, surface: (real, real) -> Vec)
    returns (verts: seq<Vec>, norms: seq<Vec>, uvs: seq<Vec>)
    requires lats > 0 && lons > 0
    requires forall u, v :: |surface(u, v)| == 3
    ensures |verts| == (lats + 1) * (lons + 1) && |norms| == |verts| && |uvs| == |verts|
    ensures RowsDone(verts, norms, uvs, lats + 1, 0, lats, lons, radius, surface)
  {
    verts, norms, uvs := [], [], [];
    for lat := 0 to lats + 1
      invariant |verts| == Grid(lat, 0, lons) && |norms| == |verts| && |uvs| == |verts|
      invariant RowsDone(verts, norms, uvs, lat, 0, lats, lons, radius, surface)
    {
      var v := lat as real / lats as real;
      for lon := 0 to lons + 1
        invariant |verts| == Grid(lat, lon, lons) && |norms| == |verts| && |uvs| == |verts|
        invariant RowsDone(verts, norms, uvs, lat, lon, lats, lons, radius, surface)
      {
        var u := lon as real / lons as real;
        var p := surface(u, v);
        PushVertex(verts, norms, uvs, lat, lon, lats, lons, radius, surface);
        verts := verts + [SurfaceVertex(p, radius)];
        norms := norms + [Direction(p)];
        uvs := uvs + [[u, 1.0 - v]];
      }
      NextRow(lat, lons);
      NextRowDone(verts, norms, uvs, lat, lats, lons, radius, surface);
    }
    FullGrid(lats, lons);
  }

  /** The second loop nest of `uv_sphere`: six indices per cell, row by row. */
  method SphereIndices(lats: int, lons: int) returns (indices: seq<int>)
    requires lats > 0 && lons > 0
    ensures |indices| == 6 * (lats * lons)
    ensures CellsDone(indices, lats, 0, lons)
    ensures forall i :: 0 <= i < |indices| ==> 0 <= indices[i] < (lats + 1) * (lons + 1)
  {
    indices := [];
    for lat := 0 to lats
      invariant |indices| == 6 * Cell(lat, 0, lons)
      invariant CellsDone(indices, lat, 0, lons)
      invariant forall i :: 0 <= i < |indices| ==> 0 <= indices[i] < (lats + 1) * (lons + 1)
    {
      for lon := 0 to lons
        invariant |indices| == 6 * Cell(lat, lon, lons)
        invariant CellsDone(indices, lat, lon, lons)
        invariant forall i :: 0 <= i < |indices| ==> 0 <= indices[i] < (lats + 1) * (lons + 1)
      {
        PushCell(indices, lat, lon, lons);
        CellIndicesInGrid(lat, lon, lats, lons);
        indices := PushCellIndices(indices, lat, lon, lons);
      }
      NextRow(lat, lons);
    }
  }

  /** The body of the index loops: the two triangles of cell (lat, lon). */
  method PushCellIndices(indices: seq<int>, lat: int, lon: int, lons: int) returns (indices': seq<int>)
    ensures indices' == indices + CellIndices(lat, lon, lons)
  {
    var a := lat * (lons + 1) + lon;
    var b := a + lons + 1;
    indices' := indices;
    indices' := indices' + [a];
    indices' := indices' + [b];
    indices' := indices' + [a + 1];
    indices' := indices' + [a + 1];
    indices' := indices' + [b];
    indices' := indices' + [b + 1];
  }

  /** A point of the unit sphere scaled by the radius, with w = 1. */
  function SurfaceVertex(p: Vec, radius: real): (r: Vec)
    requires |p| == 3
    ensures |r| == 4 && r[3] == 1.0 && forall i :: 0 <= i < 3 ==> r[i] == radius * p[i]
  {
    [radius * p[0], radius * p[1], radius * p[2], 1.0]
  }

  /** Grid vertex (a, b) holds what the vertex loop pushes for it. */
  ghost predicate VertexAt(verts: seq<Vec>, norms: seq<Vec>, uvs: seq<Vec>, a: int, b: int,
                           lats: int, lons: int, radius: real, surface: (real, real) -> Vec)
    requires lats > 0 && lons > 0
  {
    var k := Grid(a, b, lons);
    var p := surface(b as real / lons as real, a as real / lats as real);
    && 0 <= k < |verts| && k < |norms| && k < |uvs| && |p| == 3
    && uvs[k] == SphereUv(a, b, lats, lons)
    && verts[k] == SurfaceVertex(p, radius)
    && norms[k] == Direction(p)
  }

  /** Every grid vertex before (lat, lon), row by row, is in place. */
  ghost predicate RowsDone(verts: seq<Vec>, norms: seq<Vec>, uvs: seq<Vec>, lat: int, lon: int,
                           lats: int, lons: int, radius: real, surface: (real, real) -> Vec)
    requires lats > 0 && lons > 0
  {
    forall a, b :: 0 <= a <= lat && 0 <= b <= lons && (a < lat || b < lon) ==>
      VertexAt(verts, norms, uvs, a, b, lats, lons, radius, surface)
  }

  /** Pushing grid vertex (lat, lon) keeps the earlier ones and places it. */
  lemma PushVertex(verts: seq<Vec>, norms: seq<Vec>, uvs: seq<Vec>, lat: int, lon: int,
                   lats: int, lons: int, radius: real, surface: (real, real) -> Vec)
    requires lats > 0 && lons > 0 && 0 <= lat && 0 <= lon <= lons
    requires forall u, v :: |surface(u, v)| == 3
    requires |verts| == Grid(lat, lon, lons) && |norms| == |verts| && |uvs| == |verts|
    requires RowsDone(verts, norms, uvs, lat, lon, lats, lons, radius, surface)
    ensures var u, v := lon as real / lons as real, lat as real / lats as real;
      var p := surface(u, v);
      RowsDone(verts + [SurfaceVertex(p, radius)],
               norms + [Direction(p)], uvs + [[u, 1.0 - v]], lat, lon + 1, lats, lons, radius, surface)
  {
    var u, v := lon as real / lons as real, lat as real / lats as real;
    var p := surface(u, v);
    var verts', norms', uvs' := verts + [SurfaceVertex(p, radius)],
      norms + [Direction(p)], uvs + [[u, 1.0 - v]];
    forall a, b | 0 <= a <= lat && 0 <= b <= lons && (a < lat || b < lon + 1)
      ensures VertexAt(verts', norms', uvs', a, b, lats, lons, radius, surface)
    {
      var k := Grid(a, b, lons);
      if a < lat || b < lon {
        GridBefore(a, b, lat, lon, lons);
        assert VertexAt(verts, norms, uvs, a, b, lats, lons, radius, surface);
        assert verts'[k] == verts[k] && norms'[k] == norms[k] && uvs'[k] == uvs[k];
      } else {
        assert uvs'[k] == SphereUv(a, b, lats, lons);
      }
    }
  }

  /** Finishing row lat is starting row lat + 1. */
  lemma NextRowDone(verts: seq<Vec>, norms: seq<Vec>, uvs: seq<Vec>, lat: int,
                    lats: int, lons: int, radius: real, surface: (real, real) -> Vec)
    requires lats > 0 && lons > 0
    requires RowsDone(verts, norms, uvs, lat, lons + 1, lats, lons, radius, surface)
    ensures RowsDone(verts, norms, uvs, lat + 1, 0, lats, lons, radius, surface)
  {
  }

  lemma FullGrid(lats: int, lons: int)
    ensures Grid(lats + 1, 0, lons) == (lats + 1) * (lons + 1)
    ensures Cell(lats, 0, lons) == lats * lons
  {
  }

  /** Every grid cell before (lat, lon), row by row, has its six indices in place. */
  ghost predicate CellsDone(indices: seq<int>, lat: int, lon: int, lons: int)
  {
    forall a, b, t :: 0 <= a <= lat && 0 <= b < lons && (a < lat || b < lon) && 0 <= t < 6 ==>
      0 <= Six(Cell(a, b, lons), t) < |indices| && indices[Six(Cell(a, b, lons), t)] == CellIndices(a, b, lons)[t]
  }

  /** Pushing the indices of cell (lat, lon) keeps the earlier ones and places them. */
  lemma PushCell(indices: seq<int>, lat: int, lon: int, lons: int)
    requires 0 <= lat && 0 <= lon < lons
    requires |indices| == 6 * Cell(lat, lon, lons)
    requires CellsDone(indices, lat, lon, lons)
    ensures CellsDone(indices + CellIndices(lat, lon, lons), lat, lon + 1, lons)
    ensures |indices + CellIndices(lat, lon, lons)| == 6 * Cell(lat, lon + 1, lons)
  {
    var indices' := indices + CellIndices(lat, lon, lons);
    forall a, b, t | 0 <= a <= lat && 0 <= b < lons && (a < lat || b < lon + 1) && 0 <= t < 6
      ensures 0 <= Six(Cell(a, b, lons), t) < |indices'|
      ensures indices'[Six(Cell(a, b, lons), t)] == CellIndices(a, b, lons)[t]
    {
      if a < lat || b < lon {
        CellBefore(a, b, lat, lon, lons);
      }
    }
  }
}
