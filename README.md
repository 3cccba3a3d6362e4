# A verified model of the lab-3 software renderer

The lab-3 program of computer-graphics is a small CPU renderer written in
C++. It has these parts:

- fixed-size vectors and matrices of doubles, `vec<N>` and `mat<R, C>`, with
  the usual operators, a determinant by Laplace expansion, cofactors and
  the inverse-transpose built from them;
- a `Camera` holding a model-view, a perspective and a viewport matrix;
- the rasterizer in `our_gl.cpp`:
  - global frame and depth buffers;
  - the "over" colour blend;
  - `rasterize`, which projects a clip-space triangle to the screen, culls
    back-facing and sub-pixel triangles, walks the clamped bounding box,
    computes screen-space and perspective-correct barycentric weights,
    depth-tests, calls the fragment shader and writes the pixel;
- the `GhostShader`, which projects model vertices through the camera and
  paints every fragment in the model's colour;
- the generators `cube`, `box` and `uv_sphere` in `primitives.cpp`;
- the `Model` constructor's copy loops, the fallback normal lookup and the
  `parentDir` helper in `model.cpp`.

The Dafny model has one module per source file:

| module | models |
|---|---|
| `Vectors` | `vec.h` / `vector.h` |
| `Matrices` | `mat.h` / `matrix.h` |
| `SmallMatrices` | closed forms of the 2 x 2 and 3 x 3 cases, and the round trip `m * invert(m) == identity` |
| `Cameras` | `camera.h` / `camera.cpp` |
| `Rasterizer` | `our_gl.cpp` |
| `GhostShaders` | `ghost_shader.h` |
| `Primitives` | `primitives.cpp` |
| `Models` | `model.cpp` |

Vectors are `seq<real>` and matrices are sequences of rows. The camera and
the global buffers are classes whose methods update their fields. The
frame buffer is an `array2` of 4-byte colours and the depth buffer an
`array<real>`. The loops of the operators and generators are methods, each
proved against a specification function.

## Model

| member | source | states |
|---|---|---|
| Vectors.Vec2.Get | lab-3/include/math/vec.h:27-35 | index 0 reads x and index 1 reads y; the index must lie in [0, 2) |
| Vectors.Vec3.Get | lab-3/include/math/vec.h:44-52 | indices 0, 1, 2 read x, y, z; the index must lie in [0, 3) |
| Vectors.Vec4.Get | lab-3/include/math/vec.h:62-76 | indices 0..3 read x, y, z, w; the index must lie in [0, 4) |
| Vectors.Vec4.XY | lab-3/include/math/vec.h:78 | `xy()` is the first two components of the vector, unchanged |
| Vectors.Vec4.XYZ | lab-3/include/math/vec.h:79 | `xyz()` is the first three components of the vector, unchanged |
| Vectors.At | lab-3/include/math/vec.h:11-19 | the generic `operator[]` accepts only 0 <= i < N and returns component i |
| Vectors.DotProduct | lab-3/include/math/vec.h:86-93 | the accumulation loop returns the dot product Σ lhs[i]·rhs[i] |
| Vectors.Plus | lab-3/include/math/vec.h:95-102 | the copy-and-update loop returns the componentwise sum |
| Vectors.Minus | lab-3/include/math/vec.h:104-111 | the copy-and-update loop returns the componentwise difference |
| Vectors.Times | lab-3/include/math/vec.h:113-120 | `v * s` returns every component multiplied by s |
| Vectors.TimesLeft | lab-3/include/math/vec.h:122-125 | `s * v` is the vector `v * s`, and each of its components is s times that of v |
| Vectors.Divide | lab-3/include/math/vec.h:127-134 | `v / s` returns every component divided by s, for s ≠ 0 |
| Vectors.Normalized | lab-3/include/math/vec.h:149-152 | `normalized(v)` has v's length, and each component times the norm gives v's component back |
| Vectors.NormalizedIsUnit | lab-3/include/math/vec.h:144-152 | when the norm is exact, the normalised vector has squared length 1 |
| Vectors.NormalizedKeepsOrthogonal | lab-3/include/math/vec.h:149-152 | normalising two orthogonal vectors keeps them orthogonal |
| Vectors.AddCommutative | lab-3/include/math/vec.h:95-102 | a + b == b + a |
| Vectors.AddSubCancel | lab-3/include/math/vec.h:95-111 | (a + b) − b == a |
| Vectors.DotSymmetric | lab-3/include/math/vec.h:86-93 | a·b == b·a |
| Vectors.DotDivLeft | lab-3/include/math/vec.h:86-93 | (a / s)·b == (a·b) / s |
| Vectors.Dot2 | lab-3/include/math/vec.h:86-93 | the 2-dimensional dot product written out |
| Vectors.Dot3 | lab-3/include/math/vec.h:86-93 | the 3-dimensional dot product written out |
| Vectors.Dot4 | lab-3/include/math/vec.h:86-93 | the 4-dimensional dot product written out |
| Vectors.CrossOrthogonal | lab-3/include/math/vec.h:154-156 | cross(a, b) is orthogonal to both a and b |
| Vectors.Cross | lab-3/include/math/vec.h:154-156 | `cross` returns a 3-vector; Vectors.CrossOrthogonal and Vectors.CrossAntiCommutative state what it is |
| Vectors.CrossAntiCommutative | lab-3/include/math/vec.h:154-156 | cross(a, b) == −cross(b, a) |
| Vectors.ScaleDistributes | lab-3/include/math/vec.h:95-120 | (a + b) * s == a * s + b * s |
| Matrices.RowAt | lab-3/include/math/mat.h:15-23 | a matrix's `operator[]` accepts 0 <= idx < nrows and returns row idx |
| Matrices.Transposed | lab-3/include/math/mat.h:59-67 | the double loop returns the transpose |
| Matrices.TransposeEntries | lab-3/include/math/mat.h:59-67 | transpose()[i][j] == m[j][i] |
| Matrices.TransposeInvolution | lab-3/include/math/mat.h:59-67 | transposing twice gives back the matrix |
| Matrices.Apply | lab-3/include/math/mat.h:75-82 | mat × vec: entry i is row i dotted with the vector |
| Matrices.Product | lab-3/include/math/mat.h:84-97 | the triple loop returns the product: entry (i, j) is row i of lhs dotted with column j of rhs |
| Matrices.VecMatColumns | lab-3/include/math/mat.h:70-73 | vec × mat, read as a 1-row product: entry j is the vector dotted with column j |
| Matrices.ScaleRows | lab-3/include/math/mat.h:99-106 | mat * s scales every row by s |
| Matrices.DivideRows | lab-3/include/math/mat.h:108-115 | mat / s divides every row by s, for s ≠ 0 |
| Matrices.Sum | lab-3/include/math/mat.h:117-126 | mat + mat adds entry by entry |
| Matrices.Difference | lab-3/include/math/mat.h:128-137 | mat − mat subtracts entry by entry |
| Matrices.SkipMinor | lab-3/include/math/mat.h:30-40 | the skip loops with counters si, sj build exactly the minor that drops row `row` and column `col` |
| Matrices.Minor | lab-3/include/math/matrix.h:40-47 | the index-shift minor is (n−1) × (n−1); Matrices.MinorDropsRowAndColumn states which entries it keeps |
| Matrices.MinorDropsRowAndColumn | lab-3/include/math/matrix.h:40-47 | in the index-shift minor, entry (i, j) is m[i + (i >= row)][j + (j >= col)]; every entry outside the dropped row and column appears |
| Matrices.CofactorOf | lab-3/include/math/mat.h:30-43 | `cofactor(row, col)` is the minor's determinant, negated exactly when row + col is odd |
| Matrices.Determinant | lab-3/include/math/mat.h:147-163 | `dt<N>::det` expands along row 0 and returns the Laplace determinant; `dt<1>` returns the entry |
| Matrices.DotPrefixIsExpansion | lab-3/include/math/mat.h:147-156 | the expansion loop's partial sums equal the dot product of the cofactor prefix with row 0 |
| Matrices.DivisorIsDet | lab-3/include/math/mat.h:52 | the divisor `adjugate_transpose[0] * R[0]` is the determinant |
| Matrices.InvertTransposed | lab-3/include/math/mat.h:45-53 | the fill loop returns the cofactor matrix divided by the determinant |
| Matrices.Invert | lab-3/include/math/mat.h:55-57 | `invert()` is an n × n matrix, the transpose of `invert_transpose()`; SmallMatrices.InvertRoundTrip2 and InvertRoundTrip3 prove m × invert(m) = I for n = 2 and 3 |
| SmallMatrices.Minor1 | lab-3/include/math/mat.h:158-163 | a 2 × 2 minor's determinant is the single remaining entry |
| SmallMatrices.Cofactors2 | lab-3/include/math/mat.h:30-43 | the four cofactors of a 2 × 2 matrix: d, −c, −b, a |
| SmallMatrices.Det2 | lab-3/include/math/mat.h:147-163 | det of a 2 × 2 matrix is ad − bc |
| SmallMatrices.InvertEntry | lab-3/include/math/mat.h:55-57 | invert()[r][c] is cofactor(c, r) / det |
| SmallMatrices.InvertRoundTrip2 | lab-3/include/math/mat.h:45-57 | for every invertible 2 × 2 matrix, m * invert(m) is the identity |
| SmallMatrices.Minor3 | lab-3/include/math/mat.h:30-40 | the minors of a 3 × 3 matrix written out |
| SmallMatrices.CofactorIs3 | lab-3/include/math/mat.h:30-43 | each recursive 3 × 3 cofactor equals its closed form |
| SmallMatrices.DetIs3 | lab-3/include/math/mat.h:147-156 | the recursive 3 × 3 determinant equals the rule of Sarrus |
| SmallMatrices.Laplace3 | lab-3/include/math/mat.h:147-156 | a row dotted with its own cofactors gives the determinant; dotted with another row's cofactors it gives 0, for rows and for columns |
| SmallMatrices.InvertRoundTrip3 | lab-3/include/math/mat.h:45-57 | for every invertible 3 × 3 matrix, m * invert(m) is the identity |
| SmallMatrices.InvertTransposeIs3 | lab-3/include/math/mat.h:45-53 | the generic invert_transpose of a 3 × 3 matrix equals its closed form |
| Cameras.Camera.constructor | lab-3/include/camera.h:8 | the default camera's three matrices are all zero |
| Cameras.Camera.Looking | lab-3/src/camera.cpp:19-22 | the camera built from eye, center, up and focal has the look-at model-view and the perspective of `focal`; its viewport stays zero |
| Cameras.Camera.ModelView | lab-3/include/camera.h:11 | returns the stored model-view matrix, a 4 × 4 matrix |
| Cameras.Camera.Perspective | lab-3/include/camera.h:12 | returns the stored perspective matrix |
| Cameras.Camera.Viewport | lab-3/include/camera.h:13 | returns the stored viewport matrix |
| Cameras.Camera.Lookat | lab-3/src/camera.cpp:3-9 | sets the model-view to basis(l, m, n) × translation(−center) and changes no other field |
| Cameras.Camera.InitPerspective | lab-3/src/camera.cpp:11-13 | sets the perspective matrix (the identity with −1/f at row 3, column 2) and nothing else |
| Cameras.Camera.InitViewport | lab-3/src/camera.cpp:15-17 | sets the viewport matrix and nothing else |
| Cameras.PerspectiveDivisor | lab-3/src/camera.cpp:11-13 | the perspective matrix keeps x, y, z and turns w into w − z/f |
| Cameras.PerspectiveMatrix | lab-3/src/camera.cpp:11-13 | the perspective matrix is 4 × 4; Cameras.PerspectiveDivisor states what it does to a point |
| Cameras.ViewportMaps | lab-3/src/camera.cpp:15-17 | the viewport sends NDC (u, v, z, 1) to (x + w(u+1)/2, y + h(v+1)/2, z, 1) |
| Cameras.ViewportMatrix | lab-3/src/camera.cpp:15-17 | the viewport matrix is 4 × 4; Cameras.ViewportMaps and ViewportCorners state where it sends NDC points |
| Cameras.ViewportCorners | lab-3/src/camera.cpp:15-17 | NDC corners (−1, −1) and (1, 1) land on the rectangle's corners, and the NDC origin on its centre |
| Cameras.LookatRows | lab-3/src/camera.cpp:7-8 | the look-at matrix has rows (l, −l·c), (m, −m·c), (n, −n·c) and (0, 0, 0, 1) |
| Cameras.LookatMatrix | lab-3/src/camera.cpp:3-9 | the look-at matrix is 4 × 4; Cameras.LookatRows, LookatCenterToOrigin and LookatBasisOrthonormal state what it is |
| Cameras.LookatCenterToOrigin | lab-3/src/camera.cpp:3-9 | the model-view matrix sends the point `center` to the origin |
| Cameras.LookatBasisOrthonormal | lab-3/src/camera.cpp:4-6 | n, l, m are pairwise orthogonal unit vectors |
| Rasterizer.Mix | lab-3/src/our_gl.cpp:20-22 | one blended channel lies between the two inputs; alpha 1 gives c1 and alpha 0 gives c2 |
| Rasterizer.Blend | lab-3/src/our_gl.cpp:16-26 | the blend is opaque and mixes red, green and blue by c1's alpha / 255, each channel stored in its own byte |
| Rasterizer.BlendChannels | lab-3/src/our_gl.cpp:16-26 | each blended channel lies between the inputs; an opaque c1 comes through and a fully transparent one leaves c2 |
| Rasterizer.Ndc | lab-3/src/our_gl.cpp:29 | each NDC vertex is the clip vertex divided by its w, so its own w is 1 |
| Rasterizer.Screen | lab-3/src/our_gl.cpp:30 | each screen vertex is a 2-vector, the x and y of the viewport image of the NDC vertex |
| Rasterizer.Abc | lab-3/src/our_gl.cpp:32-38 | ABC has rows (screen.x, screen.y, 1) |
| Rasterizer.Culled | lab-3/src/our_gl.cpp:39 | the triangle is culled exactly when the determinant of ABC, in closed form, is below 1 |
| Rasterizer.Trunc | lab-3/src/our_gl.cpp:45 | converting a double to int truncates toward zero |
| Rasterizer.Min3 | lab-3/src/our_gl.cpp:41-42 | the minimum of the three screen coordinates is one of them and at most each |
| Rasterizer.Max3 | lab-3/src/our_gl.cpp:41-42 | the maximum of the three screen coordinates is one of them and at least each |
| Rasterizer.BoxLo | lab-3/src/our_gl.cpp:41-46 | the lower end of the pixel range is at least 0, at most every vertex's truncated coordinate raised to 0, and equal to one of them |
| Rasterizer.BoxHi | lab-3/src/our_gl.cpp:41-46 | the upper end is at most size − 1, at least every vertex's truncated coordinate lowered to size − 1, and equal to one of them |
| Rasterizer.ScreenWeights | lab-3/src/our_gl.cpp:47 | `ABC.invert_transpose() * (x, y, 1)` gives three weights; Rasterizer.ScreenWeightsBarycentric states that they are barycentric |
| Rasterizer.ShadePixel | lab-3/src/our_gl.cpp:47-66 | one pixel is either left as it was, or given a strictly nearer depth equal to the weights dotted with the NDC depths |
| Rasterizer.WeightRow | lab-3/src/our_gl.cpp:47 | weight i times det(ABC) is cofactor row i dotted with (x, y, 1) |
| Rasterizer.ScreenWeightsBarycentric | lab-3/src/our_gl.cpp:47 | the screen weights sum to 1 and rebuild the pixel (x, y) from the three screen vertices |
| Rasterizer.ClipWeights | lab-3/src/our_gl.cpp:50-52 | perspective-correct weights are non-negative, sum to 1 and are proportional to bc_screen[i] / w[i] |
| Rasterizer.CulledOrOutsideUnchanged | lab-3/src/our_gl.cpp:39-46 | a culled triangle, or a pixel outside the clamped box, keeps its depth and colour |
| Rasterizer.NegativeWeightUnchanged | lab-3/src/our_gl.cpp:48 | a pixel with a negative screen weight is skipped |
| Rasterizer.DepthMonotone | lab-3/src/our_gl.cpp:54-59 | a pixel's depth never decreases: either the pixel is unchanged, or it takes the triangle's strictly nearer interpolated depth |
| Rasterizer.DiscardWritesNothing | lab-3/src/our_gl.cpp:57-58 | a shader that always discards writes neither depth nor colour |
| Rasterizer.WrittenColor | lab-3/src/our_gl.cpp:57-66 | a written pixel had barycentric weights, was not discarded, and holds the shader's colour, blended over the old colour when that colour is translucent |
| Rasterizer.OffsetInRange | lab-3/src/our_gl.cpp:55 | x + y·width indexes the width·height depth buffer |
| Rasterizer.OffsetInjective | lab-3/src/our_gl.cpp:55 | two pixels share a depth entry only if they are the same pixel |
| Rasterizer.AllOffsetsInRange | lab-3/src/our_gl.cpp:13 | every pixel of a width × height image has its own entry in the depth buffer |
| Rasterizer.GlGlobals.constructor | lab-3/src/our_gl.cpp:8-9 | before `init` the frame buffer and the depth buffer are empty |
| Rasterizer.GlGlobals.Init | lab-3/src/our_gl.cpp:11-14 | `init` allocates a width × height frame buffer of the clear colour and a width·height depth buffer of −1000 |
| Rasterizer.GlGlobals.ShadeAt | lab-3/src/our_gl.cpp:47-66 | the loop body changes only pixel (x, y) and its depth entry, as the per-pixel rule says |
| Rasterizer.GlGlobals.ShadeColumn | lab-3/src/our_gl.cpp:46-66 | one pass of the column loop at x changes only the pixels of column x inside the bounding box, each as the per-pixel rule says; every other pixel and depth entry keeps its value |
| Rasterizer.GlGlobals.Rasterize | lab-3/src/our_gl.cpp:28-69 | after `rasterize`, every pixel of the target and its depth entry are what the per-pixel rule gives from the pixel's own old value |
| GhostShaders.Attach | lab-3/include/shaders/ghost_shader.h:7-11 | the shader sees the model's vertices and colour and the camera's current model-view and perspective |
| GhostShaders.Vertex | lab-3/include/shaders/ghost_shader.h:13-16 | `vertex` returns a 4-component clip-space point |
| GhostShaders.VertexPerspective | lab-3/include/shaders/ghost_shader.h:13-16 | with a look-at camera, a vertex with w = 1 keeps its eye-space x, y, z and gets w = 1 − z/f |
| GhostShaders.VertexOfCenter | lab-3/include/shaders/ghost_shader.h:13-16 | the camera's centre projects to the clip-space point (0, 0, 0, 1) |
| GhostShaders.Fragment | lab-3/include/shaders/ghost_shader.h:18 | `fragment` never discards |
| GhostShaders.FragmentIgnoresWeights | lab-3/include/shaders/ghost_shader.h:18 | the fragment colour is the model colour, whatever the weights |
| GhostShaders.GhostPixel | lab-3/include/shaders/ghost_shader.h:18 | rasterizing with the ghost shader writes exactly the covered pixels whose depth is strictly nearer; each gets that depth and the model colour, blended over the old colour when it is translucent |
| GhostShaders.OpaqueGhostPaintsModelColor | lab-3/include/shaders/ghost_shader.h:18 | with an opaque model colour every pixel is unchanged or painted exactly that colour |
| Primitives.Point | lab-3/src/primitives.cpp:27-30 | a corner becomes (x, y, z, 1) |
| Primitives.Direction | lab-3/src/primitives.cpp:25 | a normal becomes (x, y, z, 0) |
| Primitives.CubeFaces | lab-3/src/primitives.cpp:14-22 | six faces; every corner coordinate is ±h, and along its normal's axis each corner lies on the face plane at h times the normal |
| Primitives.BoxFaces | lab-3/src/primitives.cpp:57-75 | six faces; every corner coordinate is min or max, and a face with normal +axis (−axis) has its corners at max (min) on that axis |
| Primitives.FaceMeshLayout | lab-3/src/primitives.cpp:24-45 | after the face loop, face f owns vertices 4f..4f+3 (corner, face normal, corner uv) and indices 6f..6f+5 for triangles (4f, 4f+1, 4f+2) and (4f, 4f+2, 4f+3); every index names a vertex |
| Primitives.FaceVertexLayout | lab-3/src/primitives.cpp:24-45 | after the face loop there are 4 vertices, normals and uvs per face, and slot 4f+c holds corner c of face f, its face normal and uv c |
| Primitives.FaceIndexLayout | lab-3/src/primitives.cpp:24-45 | after the face loop there are 6 indices per face, index 6f+t names vertex 4f plus the fan corner of t, and every index is below the vertex count |
| Primitives.PushFace | lab-3/src/primitives.cpp:25-44 | one face's pushes append its 4 corners, 4 copies of its normal, the uvs (0,0), (1,0), (1,1), (0,1) and the 6 fan indices, which is one step of the face-by-face mesh |
| Primitives.EmitFaces | lab-3/src/primitives.cpp:24-45 | the push loop builds exactly the face-by-face mesh |
| Primitives.Cube | lab-3/src/primitives.cpp:7-49 | `cube(size)` is the face mesh of the face table with h = size·0.5: 24 vertices, normals and uvs, and 36 indices |
| Primitives.Box | lab-3/src/primitives.cpp:51-103 | `box(min, max)` is the face mesh of the eight-corner face table: 24 vertices, normals and uvs, and 36 indices |
| Primitives.CubeIsBox | lab-3/src/primitives.cpp:7-103 | `cube(size)` and `box((−h,−h,−h), (h,h,h))` with h = size/2 give the same lists |
| Primitives.UvSphere | lab-3/src/primitives.cpp:105-153 | longitudes are raised to at least 3 and latitudes to at least 2; there are (lats+1)(lons+1) vertices and 6·lats·lons indices; every grid vertex and every cell is in its row-major place; every index names a vertex |
| Primitives.SphereVertices | lab-3/src/primitives.cpp:114-132 | the vertex loops place grid vertex (lat, lon) at lat(lons+1) + lon with the scaled surface point, its normal and uv (lon/lons, 1 − lat/lats) |
| Primitives.SphereIndices | lab-3/src/primitives.cpp:134-149 | the index loops give cell (lat, lon) the triangles (a, b, a+1) and (a+1, b, b+1), and every index names a grid vertex |
| Primitives.PushCellIndices | lab-3/src/primitives.cpp:136-147 | one cell's pushes append (a, b, a+1, a+1, b, b+1) with a = lat·(lons+1)+lon and b = a+lons+1 |
| Primitives.CellIndicesInGrid | lab-3/src/primitives.cpp:136-147 | every index of a cell lies below (lats+1)(lons+1) |
| Primitives.SphereUvInUnitSquare | lab-3/src/primitives.cpp:130 | both texture coordinates of a sphere vertex lie in [0, 1] |
| Primitives.SurfaceVertex | lab-3/src/primitives.cpp:128 | a sphere vertex is the unit-sphere point scaled by the radius, with w = 1 |
| Models.FindLastSeparator | lab-3/src/model.cpp:10 | `find_last_of("/\\")` returns npos exactly when there is no separator; otherwise it returns a separator with none after it |
| Models.ParentDir | lab-3/src/model.cpp:9-13 | `parentDir` is a prefix of the path that is empty or ends in a separator |
| Models.ParentDirSplits | lab-3/src/model.cpp:9-13 | `parentDir` is "" exactly when the path has no separator; otherwise it is a prefix ending in a separator, with no separator after it |
| Models.ParentDirIdempotent | lab-3/src/model.cpp:9-13 | taking `parentDir` twice is the same as taking it once |
| Models.Model.constructor | lab-3/src/model.cpp:46-102 | a failed import leaves every list empty. Otherwise vertex i is (x, y, z, 1) with its normalised normal and flipped uv (or (0, 0)), and each face's three indices land at 3f..3f+2 in all three face lists |
| Models.LoadVertices | lab-3/src/model.cpp:70-83 | the vertex loop yields one vertex, normal and uv per mesh vertex, in order |
| Models.FlattenFaces | lab-3/src/model.cpp:86-94 | the face loop yields three equal index lists of length 3·nfaces, with corner k of face f at 3f + k |
| Models.Model.Normal | lab-3/src/model.cpp:104-106 | with no normal map the normal is (0, 0, 1, 0); otherwise it is the decoded texel |
| Models.FallbackNormalIsUnit | lab-3/src/model.cpp:105-106 | the fallback normal is a unit direction (w = 0) |

## Left out

- Floating point is not modelled. Doubles and floats are exact reals, so rounding, NaN and infinities are not captured. The blend's `float` alpha is exact too.
- Square roots are not modelled. `norm`, and so `normalized`, take the norm as a parameter that must square to v·v. `lookat` and the model loader receive their norms this way.
- Vectors.Normalized, Cameras.Camera.Lookat, Models.Model.constructor: these require a positive norm. The source divides by zero for a zero vector (`normalized(vec3{})`) and gets NaN; the model excludes that input.
- `sin`, `cos` and `M_PI` in `uv_sphere` are not modelled. The unit-sphere point at (u, v) is the parameter `surface`. Primitives.UvSphere therefore does not state that vertices lie on the sphere or that normals are unit length.
- Vectors.Divide, Matrices.DivideRows, Cameras.Camera.InitPerspective: these require a non-zero divisor. The source divides regardless.
- Matrices.InvertTransposed: requires a non-zero determinant, and a matrix of size at least 2. `cofactor` on a 1 × 1 matrix would need a 0 × 0 minor, which the templates never instantiate.
- Rasterizer.GlGlobals.Rasterize: requires every clip w to be positive. The source divides by w without a check; a vertex behind the camera gives a meaningless projection.
- Rasterizer.GlGlobals.Rasterize: requires the depth buffer to hold width·height entries. This is what `init` establishes.
- Rasterizer.GlGlobals.Rasterize runs the column loop sequentially. The OpenMP `parallel for` is not modelled; the columns touch disjoint pixels.
- Rasterizer.GlGlobals.Init takes natural sizes. Negative widths or heights are not modelled.
- `TGAImage` is reduced to its size and its 4-byte colours. Its file reading, writing and pixel formats are not part of this model. The frame buffer of `init` is modelled as 4-byte colours.
- Reading a mesh with Assimp is not modelled. The constructor receives either nothing (a failed or incomplete import) or the first mesh's positions, normals, norms, texture coordinates and triangulated faces.
- Loading textures (`load_textures`, `load_tga`) is not modelled; the constructor leaves the normal map empty.
- Models.Model.Normal: decoding a normal-map texel (lines 108-114) is the parameter `decode`.
- `Model::vert` is declared in `model.h` but defined nowhere in `model.cpp`, and `Model::color` is neither declared nor defined. The ghost shader therefore takes the vertex lookup and the colour as parameters.
- `model.h` declares only `Model(std::string)`. The four-list constructor `Model(verts, norms, uvs, indices)` that the primitives call does not exist, so the generators return the four lists.
- GhostShaders.Attach copies the camera's model-view and perspective matrices into the shader value. The source holds a reference to the camera and reads both matrices on every `vertex` call, so a `lookat` or `init_perspective` made after the shader is built is seen by the source but not by the model.
- Rasterizer.Offset, Rasterizer.GlGlobals.Init, Primitives.SphereIndices and Primitives.CellIndices use unbounded integers. The source computes `width * height`, `x + y * width`, `lat * (longitudes + 1) + lon` and `a + longitudes + 1` in 32-bit `int`, which overflows for very large images or grids; that overflow is not modelled.
- Matrices.Invert: m × invert(m) = I is proved only for 2 × 2 and 3 × 3 matrices, the sizes the renderer uses.
- `debug_info`, the console messages and `operator<<` are output only and are left out.
- The Phong shader, `main.cpp` and the scene setup are outside this model.
- `vector.h`/`matrix.h` and `vec.h`/`mat.h` are two versions of the same types. They differ in the index type (`std::size_t` with `size()` in `vector.h`, `int` in `vec.h`), in the dot product (a free `dot` in `vector.h`, `operator*` in `vec.h`) and in how `cofactor` builds its minor. Both constructions are modelled: Matrices.SkipMinor models the skip loops, and Matrices.Minor the index shift. They are proved to give the same minor.
- `rasterize` computes `ABC.invert_transpose() * (x, y, 1)`, the transpose of the inverse, not `invert(ABC)`. The model follows the code. Rasterizer.ScreenWeightsBarycentric proves these are the barycentric weights.
