# Face UVs of map brushes

A Dafny model of the per-vertex texture-coordinate (UV) computation of the
shambler brush-geometry library (`src/face/face_uvs.rs`). For every face of a
map's brushes it resolves the face texture's pixel size, falling back to
256x256 when the size is unknown. It then projects each vertex of the face to
a UV with one of two conventions, chosen by the face's texture-offset variant:

- **Standard** (id Tech / Quake). The plane normal's largest absolute
  component picks a world axis: up (z), right (y) or forward (x). The vertex
  is projected to (x, -y), (x, -z) or (y, -z), rotated by the texture
  rotation, divided by texture size and then by scale, and shifted by the
  pixel offsets over the size.
- **Valve 220**. The vertex is dotted with two explicit texture axes. The
  results are divided by size and then by scale, and each axis's `d` over the
  size is added.

The result is a table from face id to the UVs of the face's vertices, in
vertex order.

Files:

- `geometry.dfy` (module `Geometry`): real-valued 2D and 3D vectors, the
  face plane, the 2D rotation matrix, dot product and rotation.
- `strings.dfy` (module `Strings`): substring search, as Rust's
  `str::contains`.
- `face_uvs.dfy` (module `FaceUvs`): texture-size resolution, axis selection,
  both projections, the dispatch between them, the UV table, and the
  properties proved about them.

Notes on the model:

- The if-chain that picks the projection axis ends in a `panic!("Zero-length
  normal")`. `SelectAxis` keeps that branch as `None`, and its contract proves
  the branch is never taken: one of three reals is always at least the other
  two. A zero normal therefore takes the up projection; it does not fail,
  although the panic message suggests an error was meant. The model follows
  the code.
- The Rust code indexes its `BTreeMap` inputs with `[]`, which panics on a
  missing key. The model turns these lookups into the precondition
  `FaceTables.CanProject`. The name table is read only when the size is
  missing, so only then must the texture have a name.
- Numbers are exact `real`s. Texture sizes are naturals (`u32` in the
  source), converted to reals as the source converts them to `f64`.
- The rotation matrix that `Rotation2::new(angle.to_radians())` builds is
  supplied by a function parameter `rotationOf: real -> Rotation2`. It is
  uninterpreted; lemmas that need an unrotated texture require
  `rotationOf(angle) == Identity`. `Rotate` keeps lengths only for a matrix
  with cos^2 + sin^2 = 1, which is what `Rotation2::new` builds.
- Texture space: both projections end by dividing by the texture size and
  then by the scale, and adding an offset over the size. `Unscale` is the
  inverse of that step for one coordinate, and the UV functions state their
  results through it.

## Model

| member | source | states |
|---|---|---|
| `FaceUvs.ResolveTextureSize` | src/face/face_uvs.rs:31-40 | a texture with a known size gets that size unchanged; any other gets 256x256 (which is nonzero); the name table is needed only in the fallback |
| `Strings.Contains` | src/face/face_uvs.rs:33 | the substring test is true exactly when the pattern occurs at some index of the name |
| `FaceUvs.WarnsMissingTexture` | src/face/face_uvs.rs:31-38 | the "not found" warning is logged exactly when the size is missing and `TB_empty` occurs at no index of the name |
| `FaceUvs.ResolvedSizeIgnoresNames` | src/face/face_uvs.rs:31-40 | the texture name never changes the resolved size, only whether a warning is logged |
| `FaceUvs.PlaceholderFallsBackSilently` | src/face/face_uvs.rs:31-40 | for any texture without a size: it gets 256x256; no warning if `TB_empty` occurs anywhere in its name, a warning if it occurs nowhere; instances `TB_empty` and `rock_TB_empty` (silent) and `rock` (warns) |
| `FaceUvs.SizeVector` | src/face/face_uvs.rs:58 | converting a size with positive width and height gives a vector with no zero component |
| `FaceUvs.SelectAxis` | src/face/face_uvs.rs:106-118 | the panic branch is never reached; up is chosen iff its product is at least both others, right iff it beats up strictly and forward at least, forward iff it beats both strictly (ties go up, then right, then forward) |
| `FaceUvs.DominantAxis` | src/face/face_uvs.rs:98-118 | an axis is always chosen; up iff abs(z) is at least abs(y) and abs(x), right iff abs(y) beats abs(z) strictly and is at least abs(x), forward iff abs(x) beats both strictly: the chosen axis is one along which the normal's component is largest in absolute value |
| `FaceUvs.DominantAxisComparesDotProducts` | src/face/face_uvs.rs:98-104 | the compared quantities are the absolute dot products of the normal with the z, y and x unit vectors |
| `FaceUvs.ZeroNormalProjectsUp` | src/face/face_uvs.rs:102-118 | a zero normal selects the up projection instead of failing |
| `FaceUvs.FirstKeptAxis` | src/face/face_uvs.rs:106-115 | the first coordinate a projection keeps is along an axis other than the projection axis |
| `FaceUvs.SecondKeptAxis` | src/face/face_uvs.rs:106-115 | the second kept coordinate is along the third axis, neither the projection axis nor the first kept one |
| `FaceUvs.Project` | src/face/face_uvs.rs:106-115 | the projected point is the vertex's coordinate along the first kept axis and the negated coordinate along the second kept axis |
| `FaceUvs.ProjectIsLinear` | src/face/face_uvs.rs:106-115 | every projection maps a sum of vertices to the sum of their projections and the origin to the origin |
| `FaceUvs.MoveAlong` | src/face/face_uvs.rs:106-115 | moving along an axis changes that coordinate by `t` and leaves the other two as they were |
| `Geometry.Rotate` | src/face/face_uvs.rs:120-122 | the identity rotation leaves the point in place; a proper rotation (cos^2 + sin^2 = 1) keeps its distance from the origin |
| `FaceUvs.ToTextureSpace` | src/face/face_uvs.rs:122-128 | multiplying the result by size and scale and taking away the offset times scale gives back the rotated or projected point, coordinate by coordinate |
| `FaceUvs.ToTextureSpaceIsAffine` | src/face/face_uvs.rs:122-128 | the shared final step (divide by size and scale, add the offset over size) is affine in the projected point |
| `FaceUvs.ToTextureSpaceDividesByProduct` | src/face/face_uvs.rs:123-128 | dividing by size and then by scale equals dividing by size times scale, before the offset over size is added |
| `FaceUvs.StandardUv` | src/face/face_uvs.rs:89-131 | taken back out of texture space with the offsets (u, v), the standard UV is the vertex's projection along the dominant axis, rotated by the texture rotation |
| `FaceUvs.StandardUvUnrotated` | src/face/face_uvs.rs:106-128 | with an identity rotation the standard UV is the (x,-y), (x,-z) or (y,-z) projection over size times scale, plus the offsets over size |
| `FaceUvs.StandardUvIgnoresDominantAxis` | src/face/face_uvs.rs:107-115 | moving a vertex along the selected axis (z for up, y for right, x for forward) leaves its standard UV unchanged |
| `FaceUvs.StandardUvOffsetIsAdditive` | src/face/face_uvs.rs:128 | the standard UV with offsets (u, v) is the UV with zero offsets plus (u / width, v / height) |
| `FaceUvs.StandardUvIsAffine` | src/face/face_uvs.rs:89-131 | for a fixed face the standard UV is affine in the vertex: uv(a+b) - uv(a) - uv(b) + uv(0) = 0, for any rotation |
| `FaceUvs.ValveUv` | src/face/face_uvs.rs:133-152 | taken back out of texture space with each axis's `d` as offset, the Valve UV is the pair of dot products of the vertex with the two texture axes |
| `FaceUvs.ValveUvIsAffineMap` | src/face/face_uvs.rs:140-151 | the Valve UV is each texture axis over size times scale, dotted with the vertex, plus that axis's `d` over size |
| `FaceUvs.ValveUvOffsetIsAdditive` | src/face/face_uvs.rs:149 | the Valve UV is the UV with both axes' `d` set to zero, plus (u.d / width, v.d / height) |
| `FaceUvs.ValveUvIsLinear` | src/face/face_uvs.rs:140-151 | uv(a+b) - uv(a) - uv(b) + uv(0) = 0 for the Valve projection |
| `FaceUvs.VertexUv` | src/face/face_uvs.rs:67-87 | a Standard face's UV, with its offsets taken back out, is the rotated dominant-axis projection; a Valve face's UV, with its axes' `d` taken back out, is the pair of dot products with its texture axes |
| `FaceUvs.VertexUvDispatch` | src/face/face_uvs.rs:75-86 | a Standard offset sends the vertex to the standard projection with the face's plane and rotation; a Valve offset gives the Valve projection, whatever the plane and rotation |
| `FaceUvs.TopFaceStandardExample` | src/face/face_uvs.rs:67-131 | a top face (normal (0,0,1)), vertex (10,20,30), no offset, rotation or scaling, 256x256 texture: UV (0.0390625, -0.078125) |
| `FaceUvs.TopFaceValveExample` | src/face/face_uvs.rs:133-152 | the same vertex with texture axes x and y and `d` = 0: UV (0.0390625, 0.078125) |
| `FaceUvs.FaceVertexUvs` | src/face/face_uvs.rs:41-61 | a face's UV list has one entry per vertex, and entry i is the UV of vertex i with the face's plane, offset, rotation, scale and resolved size |
| `FaceUvs.New` | src/face/face_uvs.rs:27-64 | the table has exactly the listed faces as keys, and each holds that face's vertex UVs |
| `FaceUvs.NewMatchesVertices` | src/face/face_uvs.rs:27-64 | every listed face's UV list is as long as its vertex list, and entry i is the UV of vertex i |

## Left out

- Parallelism: the `par_iter` over faces and over vertices is modelled as a
  sequential fold over the face list and a sequence comprehension over the
  vertices. The collected map is the same.
- Logging: the `warn!` call is not performed. The predicate
  `WarnsMissingTexture` states when it would be.
- Floating point: `f64` rounding, NaN and infinities are not modelled. NaN
  is the only input for which the zero-length-normal panic is reachable, so
  that case is out of the model too. The `as f64` casts of the offset and
  texture-plane fields are the identity on reals.
- Zero divisors: a texture size or scale of zero gives infinities or NaN in
  `f64`. Division by zero is undefined on reals, so the model requires
  nonzero sizes and scales (`NonZero`, `FaceTables.CanProject`).
- Trigonometry: `Rotation2::new` and `to_radians` are not modelled. The
  rotation matrix for an angle comes from the parameter `rotationOf`.
- The `Usage` type-tagging wrapper around the result map carries no
  behaviour and is not modelled.
- `src/lib.rs`: `vector3_from_texture_plane` is inlined in `valve_uv`, and
  the model's `AxisDirection` does the same job. The module declarations and
  type aliases carry no behaviour.
- The plane type's source (`plane_3d.rs`) is not part of this model. Only the
  normal of a plane is read here.
