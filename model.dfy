/**
 * The mesh model: the directory helper used to find texture files next to
 * a mesh, the loops of the constructor that copy an imported mesh into the
 * model's vertex, normal, uv and face-index lists, and the fallback normal
 * used when no normal map is loaded.
 */
module Models {
  import opened Vectors

  // ---------------------------------------------------------------------
  // parentDir
  // ---------------------------------------------------------------------

  /** The two characters `find_last_of("/\\")` looks for. */
  predicate IsSeparator(c: char)
  {
    c == '/' || c == '\\'
  }

  /** `std::string::npos`, as returned when no separator is found. */
  const NoPosition: int := -1

  /** `path.find_last_of("/\\")`: the position of the last separator, or
      NoPosition when the path has none. */
  function FindLastSeparator(path: string): (r: int)
    ensures r == NoPosition <==> forall i :: 0 <= i < |path| ==> !IsSeparator(path[i])
    ensures r != NoPosition ==> 0 <= r < |path| && IsSeparator(path[r])
    ensures r != NoPosition ==> forall i :: r < i < |path| ==> !IsSeparator(path[i])
    decreases |path|
  {
    if |path| == 0 then NoPosition
    else if IsSeparator(path[|path| - 1]) then |path| - 1
    else FindLastSeparator(path[..|path| - 1])
  }

  /** `parentDir(path)`: "" when the path has no separator, otherwise the
      path up to and including its last separator. */
  function ParentDir(path: string): (dir: string)
    ensures dir <= path
    ensures dir == "" || IsSeparator(dir[|dir| - 1])
  {
    var slash := FindLastSeparator(path);
    if slash == NoPosition then "" else path[..slash + 1]
  }

  /** The parent directory is empty exactly when the path has no separator;
      otherwise it is a prefix of the path that ends in a separator, and
      what follows it has no separator. */
  lemma ParentDirSplits(path: string)
    ensures ParentDir(path) == "" <==> forall i :: 0 <= i < |path| ==> !IsSeparator(path[i])
    ensures ParentDir(path) != "" ==>
      var dir := ParentDir(path);
      && dir <= path
      && IsSeparator(dir[|dir| - 1])
      && forall i :: |dir| <= i < |path| ==> !IsSeparator(path[i])
  {
  }

  /** Taking the parent directory twice is taking it once. */
  lemma ParentDirIdempotent(path: string)
    ensures ParentDir(ParentDir(path)) == ParentDir(path)
  {
    var dir := ParentDir(path);
    if dir != "" {
      assert FindLastSeparator(dir) == |dir| - 1;
      assert dir[..|dir|] == dir;
    }
  }

  // ---------------------------------------------------------------------
  // The constructor's copy loops
  // ---------------------------------------------------------------------

  datatype Option<T> = None | Some(value: T)

  /** What the constructor reads from the importer's first mesh: 3D
      positions and normals, the length of each normal (the square root is
      not modelled), texture coordinates if the mesh has them, and
      triangulated faces of three vertex indices. */
  datatype ImportedMesh = ImportedMesh(
    positions: seq<Vec>,
    normals: seq<Vec>,
    normalLengths: seq<real>,
    texCoords: Option<seq<Vec>>,
    faces: seq<seq<int>>)

  ghost predicate ValidMesh(mesh: ImportedMesh)
  {
    && |mesh.normals| == |mesh.positions| && |mesh.normalLengths| == |mesh.positions|
    && (forall i :: 0 <= i < |mesh.positions| ==> |mesh.positions[i]| == 3 && |mesh.normals[i]| == 3)
    && (forall i :: 0 <= i < |mesh.positions| ==>
          mesh.normalLengths[i] > 0.0 && IsNorm(mesh.normals[i] + [0.0], mesh.normalLengths[i]))
    && (mesh.texCoords.Some? ==>
          |mesh.texCoords.value| == |mesh.positions|
          && forall i :: 0 <= i < |mesh.positions| ==> |mesh.texCoords.value[i]| == 3)
    && (forall f :: 0 <= f < |mesh.faces| ==> |mesh.faces[f]| == 3)
  }

  /** Where corner k of face f lands in the flattened index lists. */
  function Three(f: int, k: int): int
  {
    3 * f + k
  }

  /** The uv stored for vertex i: (u, 1 - v) flipped from the mesh's
      texture coordinates, or (0, 0) when the mesh has none. */
  function StoredUv(mesh: ImportedMesh, i: int): Vec
    requires ValidMesh(mesh) && 0 <= i < |mesh.positions|
  {
    match mesh.texCoords
    case Some(tc) => [tc[i][0], 1.0 - tc[i][1]]
    case None => [0.0, 0.0]
  }

  /** The normal stored for vertex i: (n.x, n.y, n.z, 0) over its length. */
  function StoredNormal(mesh: ImportedMesh, i: int): Vec
    requires ValidMesh(mesh) && 0 <= i < |mesh.positions|
  {
    Normalized(mesh.normals[i] + [0.0], mesh.normalLengths[i])
  }

  class Model {
    var vertices: seq<Vec>
    var normals: seq<Vec>
    var uvs: seq<Vec>
    var facetVrt: seq<int>
    var facetNrm: seq<int>
    var facetTex: seq<int>
    /** The size of the loaded normal map; 0 x 0 when none was loaded. */
    var normalMapWidth: nat
    var normalMapHeight: nat

    /** `Model::Model(filename)`, given what the importer returned: nothing
        (an unreadable or incomplete scene, which leaves every list empty)
        or the first mesh. Vertex i becomes (x, y, z, 1) with its normalised
        normal and its uv; the three indices of each face are appended, in
        order, to all three face lists. No texture is loaded. */
    constructor (scene: Option<ImportedMesh>)
      requires scene.Some? ==> ValidMesh(scene.value)
      ensures normalMapWidth == 0 && normalMapHeight == 0
      ensures scene.None? ==> vertices == [] && normals == [] && uvs == [] && facetVrt == [] && facetNrm == [] && facetTex == []
      ensures scene.Some? ==>
        var mesh := scene.value;
        && |vertices| == |mesh.positions| && |normals| == |vertices| && |uvs| == |vertices|
        && (forall i :: 0 <= i < |vertices| ==>
              && vertices[i] == mesh.positions[i] + [1.0]
              && normals[i] == StoredNormal(mesh, i)
              && uvs[i] == StoredUv(mesh, i))
        && |facetVrt| == 3 * |mesh.faces|
        && facetNrm == facetVrt && facetTex == facetVrt
        && (forall f, k :: 0 <= f < |mesh.faces| && 0 <= k < 3 ==> facetVrt[Three(f, k)] == mesh.faces[f][k])
    {
      normalMapWidth, normalMapHeight := 0, 0;
      match scene {
        case None =>
          vertices, normals, uvs := [], [], [];
          facetVrt, facetNrm, facetTex := [], [], [];
        case Some(mesh) =>
          var vs, ns, ts := LoadVertices(mesh);
          var fv, fn, ft := FlattenFaces(mesh);
          vertices, normals, uvs := vs, ns, ts;
          facetVrt, facetNrm, facetTex := fv, fn, ft;
      }
    }

    /** `normal(uv)`: the fallback direction (0, 0, 1, 0) when no normal map
        is loaded; otherwise the decoded texel at uv, whose decoding is the
        parameter `decode`. */
    function Normal(uv: Vec, decode: Vec -> Vec): (n: Vec)
      reads this
      ensures normalMapWidth == 0 || normalMapHeight == 0 ==> n == [0.0, 0.0, 1.0, 0.0]
      ensures normalMapWidth != 0 && normalMapHeight != 0 ==> n == decode(uv)
    {
      if normalMapWidth == 0 || normalMapHeight == 0 then [0.0, 0.0, 1.0, 0.0] else decode(uv)
    }
  }

  /** The fallback normal is a unit direction along +z. */
  lemma FallbackNormalIsUnit(m: Model, uv: Vec, decode: Vec -> Vec)
    requires m.normalMapWidth == 0
    ensures var n := m.Normal(uv, decode); n[3] == 0.0 && Dot(n, n) == 1.0
  {
    Dot4([0.0, 0.0, 1.0, 0.0], [0.0, 0.0, 1.0, 0.0]);
  }

  /** The vertex loop of the constructor. */
  method LoadVertices(mesh: ImportedMesh) returns (vertices: seq<Vec>, normals: seq<Vec>, uvs: seq<Vec>)
    requires ValidMesh(mesh)
    ensures |vertices| == |mesh.positions| && |normals| == |vertices| && |uvs| == |vertices|
    ensures forall i :: 0 <= i < |vertices| ==>
      && vertices[i] == mesh.positions[i] + [1.0]
      && normals[i] == StoredNormal(mesh, i)
      && uvs[i] == StoredUv(mesh, i)
  {
    vertices, normals, uvs := [], [], [];
    for i := 0 to |mesh.positions|
      invariant |vertices| == i && |normals| == i && |uvs| == i
      invariant forall j :: 0 <= j < i ==>
        && vertices[j] == mesh.positions[j] + [1.0]
        && normals[j] == StoredNormal(mesh, j)
        && uvs[j] == StoredUv(mesh, j)
    {
      var v := mesh.positions[i];
      vertices := vertices + [[v[0], v[1], v[2], 1.0]];
      var n := mesh.normals[i];
      normals := normals + [Normalized([n[0], n[1], n[2], 0.0], mesh.normalLengths[i])];
      if mesh.texCoords.Some? {
        var uv := mesh.texCoords.value[i];
        uvs := uvs + [[uv[0], 1.0 - uv[1]]];
      } else {
        uvs := uvs + [[0.0, 0.0]];
      }
      assert [v[0], v[1], v[2], 1.0] == v + [1.0];
      assert [n[0], n[1], n[2], 0.0] == n + [0.0];
    }
  }

  /** The face loop of the constructor: each index of each face is pushed
      onto all three face lists. */
  method FlattenFaces(mesh: ImportedMesh) returns (facetVrt: seq<int>, facetNrm: seq<int>, facetTex: seq<int>)
    requires ValidMesh(mesh)
    ensures |facetVrt| == 3 * |mesh.faces| && facetNrm == facetVrt && facetTex == facetVrt
    ensures forall f, k :: 0 <= f < |mesh.faces| && 0 <= k < 3 ==> facetVrt[Three(f, k)] == mesh.faces[f][k]
  {
    facetVrt, facetNrm, facetTex := [], [], [];
    for i := 0 to |mesh.faces|
      invariant |facetVrt| == 3 * i && facetNrm == facetVrt && facetTex == facetVrt
      invariant forall f, k :: 0 <= f < i && 0 <= k < 3 ==> facetVrt[Three(f, k)] == mesh.faces[f][k]
    {
      var face := mesh.faces[i];
      for k := 0 to 3
        invariant |facetVrt| == 3 * i + k && facetNrm == facetVrt && facetTex == facetVrt
        invariant forall f, k' :: 0 <= f < i && 0 <= k' < 3 ==> facetVrt[Three(f, k')] == mesh.faces[f][k']
        invariant forall k' :: 0 <= k' < k ==> facetVrt[Three(i, k')] == face[k']
      {
        var idx := face[k];
        facetVrt := facetVrt + [idx];
        facetNrm := facetNrm + [idx];
        facetTex := facetTex + [idx];
      }
    }
  }
}
