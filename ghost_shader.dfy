/**
 * The ghost shader: a stateless vertex/fragment pair that projects each
 * vertex of a model through the camera and paints every fragment in the
 * model's single colour, never discarding.
 */
module GhostShaders {
  import opened Vectors
  import opened Matrices
  import opened Cameras
  import opened SmallMatrices
  import opened Rasterizer

  /** What the shader reads through its two const references: the model's
      per-face vertex lookup and colour, and the camera's model-view and
      perspective matrices. */
  datatype GhostShader = GhostShader(vert: (int, int) -> Vec, color: Color, modelView: Mat, perspective: Mat)

  predicate ValidShader(sh: GhostShader)
  {
    IsMat(sh.modelView, 4, 4) && IsMat(sh.perspective, 4, 4)
  }

  /** `GhostShader(model, camera)`: the shader sees the camera's current matrices. */
  function Attach(vert: (int, int) -> Vec, color: Color, camera: Camera): (sh: GhostShader)
    reads camera
    requires camera.Valid()
    ensures ValidShader(sh)
    ensures sh.modelView == camera.modelView && sh.perspective == camera.perspective
    ensures sh.vert == vert && sh.color == color
  {
    GhostShader(vert, color, camera.ModelView(), camera.Perspective())
  }

  /** `vertex(face, vert)`: the model vertex taken to eye space and then to clip space. */
  function Vertex(sh: GhostShader, face: int, k: int): (clip: Vec)
    requires ValidShader(sh) && |sh.vert(face, k)| == 4
    ensures |clip| == 4
  {
    MatVec(sh.perspective, MatVec(sh.modelView, sh.vert(face, k)))
  }

  /** `fragment(bar)`: never discarded, always the model's colour. */
  function Fragment(sh: GhostShader, bar: Vec): (r: Rasterizer.Fragment)
    ensures !r.discard
  {
    Rasterizer.Fragment(false, sh.color)
  }

  /** The shader as the rasterizer calls it. */
  function AsShader(sh: GhostShader): Vec -> Rasterizer.Fragment
  {
    bar => Fragment(sh, bar)
  }

  /** The colour does not depend on the weights it is given. */
  lemma FragmentIgnoresWeights(sh: GhostShader, bar1: Vec, bar2: Vec)
    ensures AsShader(sh)(bar1) == AsShader(sh)(bar2)
    ensures AsShader(sh)(bar1).color == sh.color
  {
  }

  /** With a look-at camera and a perspective of focal length f, a model
      vertex with w = 1 keeps its eye-space x, y and z and gets
      w = 1 - z / f, z being its eye-space depth. */
  lemma VertexPerspective(sh: GhostShader, face: int, k: int,
                          eye: Vec, center: Vec, up: Vec, f: real, nLen: real, lLen: real, mLen: real)
    requires |eye| == 3 && |center| == 3 && |up| == 3 && nLen > 0.0 && lLen > 0.0 && mLen > 0.0 && f != 0.0
    requires sh.modelView == LookatMatrix(eye, center, up, nLen, lLen, mLen)
    requires sh.perspective == PerspectiveMatrix(f)
    requires |sh.vert(face, k)| == 4 && sh.vert(face, k)[3] == 1.0
    ensures var e := MatVec(sh.modelView, sh.vert(face, k));
      Vertex(sh, face, k) == [e[0], e[1], e[2], 1.0 - e[2] / f]
  {
    var v := sh.vert(face, k);
    var e := MatVec(sh.modelView, v);
    var n := ViewN(eye, center, nLen);
    var l := ViewL(eye, center, up, nLen, lLen);
    var m := ViewM(eye, center, up, nLen, lLen, mLen);
    LookatRows(l, m, n, center);
    assert sh.modelView[3] == [0.0, 0.0, 0.0, 1.0];
    Dot4(sh.modelView[3], v);
    assert e[3] == 1.0;
    PerspectiveDivisor(f, e);
  }

  /** The camera's centre, given as a model vertex, lands on the clip-space
      point (0, 0, 0, 1). */
  lemma VertexOfCenter(sh: GhostShader, face: int, k: int,
                       eye: Vec, center: Vec, up: Vec, f: real, nLen: real, lLen: real, mLen: real)
    requires |eye| == 3 && |center| == 3 && |up| == 3 && nLen > 0.0 && lLen > 0.0 && mLen > 0.0 && f != 0.0
    requires sh.modelView == LookatMatrix(eye, center, up, nLen, lLen, mLen)
    requires sh.perspective == PerspectiveMatrix(f)
    requires sh.vert(face, k) == center + [1.0]
    ensures Vertex(sh, face, k) == [0.0, 0.0, 0.0, 1.0]
  {
    LookatCenterToOrigin(eye, center, up, nLen, lLen, mLen);
    PerspectiveDivisor(f, [0.0, 0.0, 0.0, 1.0]);
  }

  /** Rasterizing with the ghost shader writes exactly the covered pixels
      whose interpolated depth is strictly nearer than the stored one; they
      get that depth and the model colour, blended over the old colour when
      the model colour is translucent. */
  lemma GhostPixel(sh: GhostShader, s: Setup, width: int, height: int, x: int, y: int, p: Pixel)
    requires ValidSetup(s)
    ensures RasterizedPixel(s, AsShader(sh), width, height, x, y, p)
         == if Covered(s, width, height, x, y) && TriangleDepth(s, x, y) > p.depth
            then Pixel(TriangleDepth(s, x, y), if Alpha(sh.color) < 255 then Blend(sh.color, p.color) else sh.color)
            else p
  {
    if !Culled(s) {
      DetIs3(s.abc);
    }
  }

  /** With an opaque model colour, every pixel ends up either unchanged or
      painted in exactly that colour. */
  lemma OpaqueGhostPaintsModelColor(sh: GhostShader, s: Setup, width: int, height: int, x: int, y: int, p: Pixel)
    requires ValidSetup(s) && Alpha(sh.color) == 255
    ensures var r := RasterizedPixel(s, AsShader(sh), width, height, x, y, p);
      r == p || r.color == sh.color
  {
    GhostPixel(sh, s, width, height, x, y, p);
  }
}
