/** Per-vertex texture coordinates for the faces of map brushes: texture-size
    resolution with a 256x256 fallback, the id-Tech "standard" dominant-axis
    projection, the Valve 220 basis-vector projection, the dispatch between
    the two, and the table that maps every face to the UVs of its vertices. */
module FaceUvs {
  import opened Geometry
  import opened Strings

  type FaceId = nat

  type TextureId = nat

  datatype Option<T> = None | Some(value: T)

  /** One texture axis of a Valve 220 face: a direction and its offset `d`. */
  datatype TexturePlane = TexturePlane(x: real, y: real, z: real, d: real)

  /** How a face places its texture: two scalar pixel offsets used with the
      dominant-axis projection and a rotation, or two explicit texture axes. */
  datatype TextureOffset =
    | Standard(u: real, v: real)
    | Valve(uPlane: TexturePlane, vPlane: TexturePlane)

  /** Pixel width and height of a texture. */
  datatype TextureSize = TextureSize(width: nat, height: nat)

  const DefaultTextureSize: TextureSize := TextureSize(256, 256)

  /** Names containing this marker are placeholder textures that are expected
      to have no size. */
  const EmptyTextureMarker: string := "TB_empty"

  // ---------------------------------------------------------------------------
  // Texture-size resolution

  /** The size of texture `tex`: its entry in `sizes`, or 256x256 when it has
      none. The name table is read only in the fallback case, to word a
      warning, so a texture without a size must at least have a name. */
  function ResolveTextureSize(tex: TextureId, names: map<TextureId, string>,
                              sizes: map<TextureId, TextureSize>): (r: TextureSize)
    requires tex in sizes || tex in names
    ensures tex in sizes ==> r == sizes[tex]
    ensures tex !in sizes ==> r == DefaultTextureSize
    ensures tex !in sizes ==> r.width > 0 && r.height > 0
  {
    if tex in sizes then sizes[tex] else DefaultTextureSize
  }

  /** Whether resolving `tex` logs the "not found" warning: exactly when the
      size is missing and the name has no occurrence of the placeholder
      marker. */
  predicate WarnsMissingTexture(tex: TextureId, names: map<TextureId, string>,
                                sizes: map<TextureId, TextureSize>)
    requires tex in sizes || tex in names
    ensures WarnsMissingTexture(tex, names, sizes) <==>
              tex !in sizes && forall i :: !OccursAt(names[tex], EmptyTextureMarker, i)
  {
    tex !in sizes && !Contains(names[tex], EmptyTextureMarker)
  }

  /** The texture's name decides only whether a warning is logged, never the
      size that is used. */
  lemma ResolvedSizeIgnoresNames(tex: TextureId, names1: map<TextureId, string>,
                                 names2: map<TextureId, string>,
                                 sizes: map<TextureId, TextureSize>)
    requires tex in sizes || tex in names1
    requires tex in sizes || tex in names2
    ensures ResolveTextureSize(tex, names1, sizes) == ResolveTextureSize(tex, names2, sizes)
  {
  }

  /** A missing texture always falls back to 256x256. It does so silently
      when its name contains the placeholder marker anywhere (the name
      `TB_empty` itself, or one such as `rock_TB_empty`), and with a warning
      when the name has no occurrence of the marker (`rock`, say). */
  lemma PlaceholderFallsBackSilently(tex: TextureId, names: map<TextureId, string>,
                                     sizes: map<TextureId, TextureSize>)
    requires tex !in sizes && tex in names
    ensures ResolveTextureSize(tex, names, sizes) == TextureSize(256, 256)
    ensures (exists i :: OccursAt(names[tex], EmptyTextureMarker, i)) ==> !WarnsMissingTexture(tex, names, sizes)
    ensures (forall i :: !OccursAt(names[tex], EmptyTextureMarker, i)) ==> WarnsMissingTexture(tex, names, sizes)
    ensures names[tex] == EmptyTextureMarker ==> !WarnsMissingTexture(tex, names, sizes)
    ensures names[tex] == "rock_TB_empty" ==> !WarnsMissingTexture(tex, names, sizes)
    ensures names[tex] == "rock" ==> WarnsMissingTexture(tex, names, sizes)
  {
    if names[tex] == EmptyTextureMarker {
      assert OccursAt(names[tex], EmptyTextureMarker, 0);
    }
    if names[tex] == "rock_TB_empty" {
      assert OccursAt(names[tex], EmptyTextureMarker, 5);
    }
  }

  /** The resolved size as the floating-point vector the projections divide by. */
  function SizeVector(size: TextureSize): (v: Vector2)
    ensures size.width > 0 && size.height > 0 ==> NonZero(v)
  {
    Vector2(size.width as real, size.height as real)
  }

  // ---------------------------------------------------------------------------
  // Standard (dominant-axis) projection

  /** The world axis a face is projected along. */
  datatype Axis = Up | Right | Forward

  const UpVector: Vector3 := Vector3(0.0, 0.0, 1.0)
  const RightVector: Vector3 := Vector3(0.0, 1.0, 0.0)
  const ForwardVector: Vector3 := Vector3(1.0, 0.0, 0.0)

  /** The coordinate of `v` along the world axis `axis` stands for. */
  function Coordinate(axis: Axis, v: Vector3): real
  {
    match axis
    case Up => v.z
    case Right => v.y
    case Forward => v.x
  }

  /** The world axis a projection along `axis` keeps as its first coordinate. */
  function FirstKeptAxis(axis: Axis): (k: Axis)
    ensures k != axis
  {
    if axis == Forward then Right else Forward
  }

  /** The world axis a projection along `axis` keeps, negated, as its second
      coordinate: neither `axis` nor the first kept axis. */
  function SecondKeptAxis(axis: Axis): (k: Axis)
    ensures k != axis && k != FirstKeptAxis(axis)
  {
    if axis == Up then Right else Up
  }

  /** The if-chain that picks the projection from the absolute dot products of
      the normal with the up, right and forward axes; `None` stands for the
      chain's final "zero-length normal" panic. The first axis whose product
      is at least both others wins, so ties go up, then right, then forward;
      and since one of three reals is always the largest, the panic is never
      reached. */
  function SelectAxis(du: real, dr: real, df: real): (r: Option<Axis>)
    ensures r.Some?
    ensures r == Some(Up) <==> du >= dr && du >= df
    ensures r == Some(Right) <==> dr > du && dr >= df
    ensures r == Some(Forward) <==> df > du && df > dr
  {
    if du >= dr && du >= df then Some(Up)
    else if dr >= du && dr >= df then Some(Right)
    else if df >= du && df >= dr then Some(Forward)
    else None
  }

  /** The projection axis for a face with plane normal `n`: always one,
      and one along which the normal's component is largest in absolute
      value, z winning ties over y and y over x. */
  function DominantAxis(n: Vector3): (r: Option<Axis>)
    ensures r.Some?
    ensures r == Some(Up) <==> Abs(n.z) >= Abs(n.y) && Abs(n.z) >= Abs(n.x)
    ensures r == Some(Right) <==> Abs(n.y) > Abs(n.z) && Abs(n.y) >= Abs(n.x)
    ensures r == Some(Forward) <==> Abs(n.x) > Abs(n.z) && Abs(n.x) > Abs(n.y)
  {
    SelectAxis(Abs(n.z), Abs(n.y), Abs(n.x))
  }

  /** The absolute components compared are the absolute dot products of the
      normal with the up, right and forward vectors. */
  lemma DominantAxisComparesDotProducts(n: Vector3)
    ensures DominantAxis(n) == SelectAxis(Abs(Dot(n, UpVector)), Abs(Dot(n, RightVector)),
                                          Abs(Dot(n, ForwardVector)))
  {
    assert Dot(n, UpVector) == n.z && Dot(n, RightVector) == n.y && Dot(n, ForwardVector) == n.x;
  }

  /** A zero normal does not stop the projection: it takes the up branch. */
  lemma ZeroNormalProjectsUp()
    ensures DominantAxis(Zero3) == Some(Up)
  {
  }

  /** The 2D point a vertex projects to for each axis: the vertex's two
      coordinates along the other world axes, the second one negated. */
  function Project(axis: Axis, vertex: Vector3): (p: Vector2)
    ensures p.x == Coordinate(FirstKeptAxis(axis), vertex)
    ensures p.y == -Coordinate(SecondKeptAxis(axis), vertex)
  {
    match axis
    case Up => Vector2(vertex.x, -vertex.y)
    case Right => Vector2(vertex.x, -vertex.z)
    case Forward => Vector2(vertex.y, -vertex.z)
  }

  /** Each projection is linear: it maps sums to sums and the origin to
      the origin. */
  lemma ProjectIsLinear(axis: Axis, a: Vector3, b: Vector3)
    ensures Project(axis, Add3(a, b)) == Add2(Project(axis, a), Project(axis, b))
    ensures Project(axis, Zero3) == Zero2
  {
    match axis
    case Up =>
    case Right =>
    case Forward =>
  }

  /** The vertex moved by `t` along the world axis `axis` stands for: that
      coordinate grows by `t` and the other two stay. */
  function MoveAlong(axis: Axis, vertex: Vector3, t: real): (moved: Vector3)
    ensures Coordinate(axis, moved) == Coordinate(axis, vertex) + t
    ensures forall other :: other != axis ==> Coordinate(other, moved) == Coordinate(other, vertex)
  {
    match axis
    case Up => vertex.(z := vertex.z + t)
    case Right => vertex.(y := vertex.y + t)
    case Forward => vertex.(x := vertex.x + t)
  }

  /** The final step both projections share: divide the 2D point by the
      texture size, then by the scale, and add the offset divided by the
      texture size. `Unscale` undoes it, coordinate by coordinate. */
  function ToTextureSpace(uv: Vector2, offset: Vector2, textureScale: Vector2,
                          textureSize: Vector2): (r: Vector2)
    requires NonZero(textureScale) && NonZero(textureSize)
    ensures Unscale(r.x, offset.x, textureScale.x, textureSize.x) == uv.x
    ensures Unscale(r.y, offset.y, textureScale.y, textureSize.y) == uv.y
  {
    UndoDivisions(uv.x, textureSize.x, textureScale.x);
    UndoDivisions(uv.y, textureSize.y, textureScale.y);
    var uv := Vector2(uv.x / textureSize.x, uv.y / textureSize.y);
    var uv := Vector2(uv.x / textureScale.x, uv.y / textureScale.y);
    Add2(uv, Vector2(offset.x / textureSize.x, offset.y / textureSize.y))
  }

  /** One coordinate taken back out of texture space: multiplied by the size
      and by the scale, less the offset times the scale (which is subtracting
      the offset over the size first). */
  function Unscale(c: real, offset: real, scale: real, size: real): real
  {
    c * size * scale - offset * scale
  }

  /** The final step is affine in the point. */
  lemma ToTextureSpaceIsAffine(p: Vector2, q: Vector2, offset: Vector2, textureScale: Vector2,
                               textureSize: Vector2)
    requires NonZero(textureScale) && NonZero(textureSize)
    ensures Add2(Sub2(Sub2(ToTextureSpace(Add2(p, q), offset, textureScale, textureSize),
                           ToTextureSpace(p, offset, textureScale, textureSize)),
                      ToTextureSpace(q, offset, textureScale, textureSize)),
                 ToTextureSpace(Zero2, offset, textureScale, textureSize)) == Zero2
  {
    AffineResidual(p.x, q.x, textureSize.x, textureScale.x, offset.x / textureSize.x);
    AffineResidual(p.y, q.y, textureSize.y, textureScale.y, offset.y / textureSize.y);
  }

  /** Dividing by size and then by scale divides by their product. */
  lemma ToTextureSpaceDividesByProduct(p: Vector2, offset: Vector2, textureScale: Vector2,
                                       textureSize: Vector2)
    requires NonZero(textureScale) && NonZero(textureSize)
    ensures ToTextureSpace(p, offset, textureScale, textureSize)
            == Vector2(p.x / (textureSize.x * textureScale.x) + offset.x / textureSize.x,
                       p.y / (textureSize.y * textureScale.y) + offset.y / textureSize.y)
  {
    DivTwice(p.x, textureSize.x, textureScale.x);
    DivTwice(p.y, textureSize.y, textureScale.y);
  }

  /** Dominant-axis UV: project, rotate, then map to texture space with the
      pixel offsets. `rotationOf` gives the rotation matrix for an angle in
      degrees. Taking the offsets back out of the UV and scaling it up again
      gives the rotated projection along the dominant axis. */
  function StandardUv(vertex: Vector3, brushPlane: Plane3d, uOffset: real, vOffset: real,
                      textureRotation: real, rotationOf: real -> Rotation2,
                      textureScale: Vector2, textureSize: Vector2): (uv: Vector2)
    requires NonZero(textureScale) && NonZero(textureSize)
    ensures var p := Rotate(rotationOf(textureRotation), Project(DominantAxis(brushPlane.normal).value, vertex));
            Unscale(uv.x, uOffset, textureScale.x, textureSize.x) == p.x
            && Unscale(uv.y, vOffset, textureScale.y, textureSize.y) == p.y
  {
    match DominantAxis(brushPlane.normal)
    case None => assert false; Zero2
    case Some(axis) =>
      ToTextureSpace(Rotate(rotationOf(textureRotation), Project(axis, vertex)),
                     Vector2(uOffset, vOffset), textureScale, textureSize)
  }

  /** With an unrotated texture, the standard UV is the projected point over
      size times scale, plus the offsets over size. */
  lemma StandardUvUnrotated(vertex: Vector3, brushPlane: Plane3d, uOffset: real, vOffset: real,
                            textureRotation: real, rotationOf: real -> Rotation2,
                            textureScale: Vector2, textureSize: Vector2)
    requires NonZero(textureScale) && NonZero(textureSize)
    requires rotationOf(textureRotation) == Identity
    ensures var uv := StandardUv(vertex, brushPlane, uOffset, vOffset, textureRotation, rotationOf,
                                 textureScale, textureSize);
            var p := Project(DominantAxis(brushPlane.normal).value, vertex);
            uv == Vector2(p.x / (textureSize.x * textureScale.x) + uOffset / textureSize.x,
                          p.y / (textureSize.y * textureScale.y) + vOffset / textureSize.y)
  {
    var p := Project(DominantAxis(brushPlane.normal).value, vertex);
    var offset := Vector2(uOffset, vOffset);
    assert StandardUv(vertex, brushPlane, uOffset, vOffset, textureRotation, rotationOf, textureScale, textureSize)
           == ToTextureSpace(Rotate(Identity, p), offset, textureScale, textureSize);
    assert Rotate(Identity, p) == p;
    ToTextureSpaceDividesByProduct(p, offset, textureScale, textureSize);
  }

  /** Moving a vertex along the dominant axis does not move its UV. */
  lemma StandardUvIgnoresDominantAxis(vertex: Vector3, t: real, brushPlane: Plane3d,
                                      uOffset: real, vOffset: real, textureRotation: real,
                                      rotationOf: real -> Rotation2,
                                      textureScale: Vector2, textureSize: Vector2)
    requires NonZero(textureScale) && NonZero(textureSize)
    ensures var moved := MoveAlong(DominantAxis(brushPlane.normal).value, vertex, t);
            StandardUv(moved, brushPlane, uOffset, vOffset, textureRotation, rotationOf, textureScale, textureSize)
            == StandardUv(vertex, brushPlane, uOffset, vOffset, textureRotation, rotationOf, textureScale, textureSize)
  {
  }

  /** The offsets only translate the result: the UV with offsets (u, v) is the
      UV with zero offsets plus (u / width, v / height). */
  lemma StandardUvOffsetIsAdditive(vertex: Vector3, brushPlane: Plane3d, uOffset: real, vOffset: real,
                                   textureRotation: real, rotationOf: real -> Rotation2,
                                   textureScale: Vector2, textureSize: Vector2)
    requires NonZero(textureScale) && NonZero(textureSize)
    ensures StandardUv(vertex, brushPlane, uOffset, vOffset, textureRotation, rotationOf, textureScale, textureSize)
            == Add2(StandardUv(vertex, brushPlane, 0.0, 0.0, textureRotation, rotationOf, textureScale, textureSize),
                    Vector2(uOffset / textureSize.x, vOffset / textureSize.y))
  {
  }

  /** For a fixed face the standard projection is affine in the vertex. */
  lemma StandardUvIsAffine(a: Vector3, b: Vector3, brushPlane: Plane3d, uOffset: real, vOffset: real,
                           textureRotation: real, rotationOf: real -> Rotation2,
                           textureScale: Vector2, textureSize: Vector2)
    requires NonZero(textureScale) && NonZero(textureSize)
    ensures var uvSum := StandardUv(Add3(a, b), brushPlane, uOffset, vOffset, textureRotation, rotationOf, textureScale, textureSize);
            var uvA := StandardUv(a, brushPlane, uOffset, vOffset, textureRotation, rotationOf, textureScale, textureSize);
            var uvB := StandardUv(b, brushPlane, uOffset, vOffset, textureRotation, rotationOf, textureScale, textureSize);
            var uvZero := StandardUv(Zero3, brushPlane, uOffset, vOffset, textureRotation, rotationOf, textureScale, textureSize);
            Add2(Sub2(Sub2(uvSum, uvA), uvB), uvZero) == Zero2
  {
    var axis := DominantAxis(brushPlane.normal).value;
    var rot := rotationOf(textureRotation);
    var offset := Vector2(uOffset, vOffset);
    var pa, pb := Rotate(rot, Project(axis, a)), Rotate(rot, Project(axis, b));
    ProjectIsLinear(axis, a, b);
    RotateAdditive(rot, Project(axis, a), Project(axis, b));
    assert Rotate(rot, Project(axis, Zero3)) == Zero2;
    assert StandardUv(Add3(a, b), brushPlane, uOffset, vOffset, textureRotation, rotationOf, textureScale, textureSize)
           == ToTextureSpace(Add2(pa, pb), offset, textureScale, textureSize);
    assert StandardUv(a, brushPlane, uOffset, vOffset, textureRotation, rotationOf, textureScale, textureSize)
           == ToTextureSpace(pa, offset, textureScale, textureSize);
    assert StandardUv(b, brushPlane, uOffset, vOffset, textureRotation, rotationOf, textureScale, textureSize)
           == ToTextureSpace(pb, offset, textureScale, textureSize);
    assert StandardUv(Zero3, brushPlane, uOffset, vOffset, textureRotation, rotationOf, textureScale, textureSize)
           == ToTextureSpace(Zero2, offset, textureScale, textureSize);
    ToTextureSpaceIsAffine(pa, pb, offset, textureScale, textureSize);
  }

  // ---------------------------------------------------------------------------
  // Valve 220 (basis-vector) projection

  /** The direction of a texture axis, without its offset. */
  function AxisDirection(p: TexturePlane): Vector3
  {
    Vector3(p.x, p.y, p.z)
  }

  /** Basis-vector UV: each coordinate is the vertex's dot product with one
      texture axis, divided by texture size then by scale, plus that axis's
      `d` divided by the texture size. */
  function ValveUv(vertex: Vector3, uPlane: TexturePlane, vPlane: TexturePlane,
                   textureScale: Vector2, textureSize: Vector2): (uv: Vector2)
    requires NonZero(textureScale) && NonZero(textureSize)
    ensures Unscale(uv.x, uPlane.d, textureScale.x, textureSize.x) == Dot(AxisDirection(uPlane), vertex)
    ensures Unscale(uv.y, vPlane.d, textureScale.y, textureSize.y) == Dot(AxisDirection(vPlane), vertex)
  {
    ToTextureSpace(Vector2(Dot(AxisDirection(uPlane), vertex), Dot(AxisDirection(vPlane), vertex)),
                   Vector2(uPlane.d, vPlane.d), textureScale, textureSize)
  }

  /** The Valve UV is an affine map of the vertex: a linear part whose rows
      are the texture axes over size times scale, plus the offsets over size. */
  lemma ValveUvIsAffineMap(vertex: Vector3, uPlane: TexturePlane, vPlane: TexturePlane,
                           textureScale: Vector2, textureSize: Vector2)
    requires NonZero(textureScale) && NonZero(textureSize)
    ensures var sx, sy := textureSize.x * textureScale.x, textureSize.y * textureScale.y;
            ValveUv(vertex, uPlane, vPlane, textureScale, textureSize)
            == Vector2(uPlane.x / sx * vertex.x + uPlane.y / sx * vertex.y + uPlane.z / sx * vertex.z
                         + uPlane.d / textureSize.x,
                       vPlane.x / sy * vertex.x + vPlane.y / sy * vertex.y + vPlane.z / sy * vertex.z
                         + vPlane.d / textureSize.y)
  {
    DotOverProduct(AxisDirection(uPlane), vertex, textureSize.x, textureScale.x);
    DotOverProduct(AxisDirection(vPlane), vertex, textureSize.y, textureScale.y);
  }

  /** The axis offsets only translate the result. */
  lemma ValveUvOffsetIsAdditive(vertex: Vector3, uPlane: TexturePlane, vPlane: TexturePlane,
                                textureScale: Vector2, textureSize: Vector2)
    requires NonZero(textureScale) && NonZero(textureSize)
    ensures ValveUv(vertex, uPlane, vPlane, textureScale, textureSize)
            == Add2(ValveUv(vertex, uPlane.(d := 0.0), vPlane.(d := 0.0), textureScale, textureSize),
                    Vector2(uPlane.d / textureSize.x, vPlane.d / textureSize.y))
  {
  }

  /** Valve UVs are linear in the vertex once the offset is removed:
      uv(a + b) - uv(a) - uv(b) + uv(0) is zero. */
  lemma ValveUvIsLinear(a: Vector3, b: Vector3, uPlane: TexturePlane, vPlane: TexturePlane,
                        textureScale: Vector2, textureSize: Vector2)
    requires NonZero(textureScale) && NonZero(textureSize)
    ensures Add2(Sub2(Sub2(ValveUv(Add3(a, b), uPlane, vPlane, textureScale, textureSize),
                           ValveUv(a, uPlane, vPlane, textureScale, textureSize)),
                      ValveUv(b, uPlane, vPlane, textureScale, textureSize)),
                 ValveUv(Zero3, uPlane, vPlane, textureScale, textureSize)) == Zero2
  {
    var un, vn := AxisDirection(uPlane), AxisDirection(vPlane);
    DotAdditive(un, a, b);
    DotAdditive(vn, a, b);
    ToTextureSpaceIsAffine(Vector2(Dot(un, a), Dot(vn, a)), Vector2(Dot(un, b), Dot(vn, b)),
                           Vector2(uPlane.d, vPlane.d), textureScale, textureSize);
  }

  // ---------------------------------------------------------------------------
  // Dispatch

  /** The UV of one vertex, by the face's offset encoding: with the offset
      taken back out, a Standard face's UV is its rotated dominant-axis
      projection, and a Valve face's UV is the pair of dot products with its
      texture axes. */
  function VertexUv(vertex: Vector3, plane: Plane3d, textureOffset: TextureOffset,
                    textureRotation: real, rotationOf: real -> Rotation2,
                    textureScale: Vector2, textureSize: Vector2): (uv: Vector2)
    requires NonZero(textureScale) && NonZero(textureSize)
    ensures textureOffset.Standard? ==>
              var p := Rotate(rotationOf(textureRotation), Project(DominantAxis(plane.normal).value, vertex));
              Unscale(uv.x, textureOffset.u, textureScale.x, textureSize.x) == p.x
              && Unscale(uv.y, textureOffset.v, textureScale.y, textureSize.y) == p.y
    ensures textureOffset.Valve? ==>
              Unscale(uv.x, textureOffset.uPlane.d, textureScale.x, textureSize.x)
              == Dot(AxisDirection(textureOffset.uPlane), vertex)
              && Unscale(uv.y, textureOffset.vPlane.d, textureScale.y, textureSize.y)
              == Dot(AxisDirection(textureOffset.vPlane), vertex)
  {
    match textureOffset
    case Standard(u, v) =>
      StandardUv(vertex, plane, u, v, textureRotation, rotationOf, textureScale, textureSize)
    case Valve(u, v) => ValveUv(vertex, u, v, textureScale, textureSize)
  }

  /** Standard faces use the dominant-axis projection with the face's plane and
      rotation; Valve faces use the basis-vector projection, whose result
      depends on neither the plane nor the rotation. */
  lemma VertexUvDispatch(vertex: Vector3, plane1: Plane3d, plane2: Plane3d,
                         textureOffset: TextureOffset,
                         rotation1: real, rotationOf1: real -> Rotation2,
                         rotation2: real, rotationOf2: real -> Rotation2,
                         textureScale: Vector2, textureSize: Vector2)
    requires NonZero(textureScale) && NonZero(textureSize)
    ensures textureOffset.Standard? ==>
              VertexUv(vertex, plane1, textureOffset, rotation1, rotationOf1, textureScale, textureSize)
              == StandardUv(vertex, plane1, textureOffset.u, textureOffset.v, rotation1, rotationOf1,
                            textureScale, textureSize)
    ensures textureOffset.Valve? ==>
              VertexUv(vertex, plane1, textureOffset, rotation1, rotationOf1, textureScale, textureSize)
              == VertexUv(vertex, plane2, textureOffset, rotation2, rotationOf2, textureScale, textureSize)
              == ValveUv(vertex, textureOffset.uPlane, textureOffset.vPlane, textureScale, textureSize)
  {
  }

  /** An axis-aligned top face, vertex (10, 20, 30), no offset, rotation or
      scaling and a 256x256 texture: the UV is (10/256, -20/256). */
  lemma TopFaceStandardExample(rotationOf: real -> Rotation2)
    requires rotationOf(0.0) == Identity
    ensures VertexUv(Vector3(10.0, 20.0, 30.0), Plane3d(Vector3(0.0, 0.0, 1.0), 30.0), Standard(0.0, 0.0),
                     0.0, rotationOf, Vector2(1.0, 1.0), Vector2(256.0, 256.0))
            == Vector2(0.0390625, -0.078125)
  {
    TopFaceProjectsUp(Vector3(10.0, 20.0, 30.0), Plane3d(Vector3(0.0, 0.0, 1.0), 30.0));
    assert Rotate(rotationOf(0.0), Vector2(10.0, -20.0)) == Vector2(10.0, -20.0);
  }

  /** The top face of the example projects along up, keeping (x, -y). */
  lemma TopFaceProjectsUp(vertex: Vector3, plane: Plane3d)
    requires vertex == Vector3(10.0, 20.0, 30.0) && plane.normal == Vector3(0.0, 0.0, 1.0)
    ensures DominantAxis(plane.normal) == Some(Up)
    ensures Project(DominantAxis(plane.normal).value, vertex) == Vector2(10.0, -20.0)
  {
    assert Abs(plane.normal.z) == 1.0 && Abs(plane.normal.y) == 0.0 && Abs(plane.normal.x) == 0.0;
  }

  /** The same vertex with texture axes x and y and no offsets: the UV is
      (10/256, 20/256). */
  lemma TopFaceValveExample(rotationOf: real -> Rotation2)
    ensures VertexUv(Vector3(10.0, 20.0, 30.0), Plane3d(Vector3(0.0, 0.0, 1.0), 30.0),
                     Valve(TexturePlane(1.0, 0.0, 0.0, 0.0), TexturePlane(0.0, 1.0, 0.0, 0.0)),
                     0.0, rotationOf, Vector2(1.0, 1.0), Vector2(256.0, 256.0))
            == Vector2(0.0390625, 0.078125)
  {
  }

  // ---------------------------------------------------------------------------
  // The face UV table

  /** The per-face lookups the computation reads. */
  datatype FaceTables = FaceTables(
    textures: map<TextureId, string>,
    faceTextures: map<FaceId, TextureId>,
    faceVertices: map<FaceId, seq<Vector3>>,
    facePlanes: map<FaceId, Plane3d>,
    faceTextureOffsets: map<FaceId, TextureOffset>,
    faceTextureRotations: map<FaceId, real>,
    faceTextureScales: map<FaceId, Vector2>,
    textureSizes: map<TextureId, TextureSize>)
  {
    /** Every lookup for face `f` succeeds, and the size and scale it divides
        by are nonzero. */
    predicate CanProject(f: FaceId)
    {
      && f in faceTextures && f in faceVertices && f in facePlanes
      && f in faceTextureOffsets && f in faceTextureRotations && f in faceTextureScales
      && (faceTextures[f] in textureSizes || faceTextures[f] in textures)
      && NonZero(SizeVector(ResolveTextureSize(faceTextures[f], textures, textureSizes)))
      && NonZero(faceTextureScales[f])
    }
  }

  /** The UVs of face `f`'s vertices, in vertex order. */
  function FaceVertexUvs(t: FaceTables, f: FaceId, rotationOf: real -> Rotation2): (uvs: seq<Vector2>)
    requires t.CanProject(f)
    ensures |uvs| == |t.faceVertices[f]|
    ensures forall i :: 0 <= i < |uvs| ==>
              uvs[i] == VertexUv(t.faceVertices[f][i], t.facePlanes[f], t.faceTextureOffsets[f],
                                 t.faceTextureRotations[f], rotationOf, t.faceTextureScales[f],
                                 SizeVector(ResolveTextureSize(t.faceTextures[f], t.textures, t.textureSizes)))
  {
    var size := SizeVector(ResolveTextureSize(t.faceTextures[f], t.textures, t.textureSizes));
    var vertices := t.faceVertices[f];
    seq(|vertices|, i requires 0 <= i < |vertices| =>
      VertexUv(vertices[i], t.facePlanes[f], t.faceTextureOffsets[f], t.faceTextureRotations[f],
               rotationOf, t.faceTextureScales[f], size))
  }

  /** The UV table for `faces`, collected face by face: exactly one entry per
      listed face, holding the UVs of that face's vertices. */
  function New(faces: seq<FaceId>, t: FaceTables, rotationOf: real -> Rotation2)
    : (uvs: map<FaceId, seq<Vector2>>)
    requires forall f :: f in faces ==> t.CanProject(f)
    ensures uvs.Keys == set f | f in faces
    ensures forall f :: f in faces ==> uvs[f] == FaceVertexUvs(t, f, rotationOf)
  {
    if faces == [] then map[]
    else
      var last := faces[|faces| - 1];
      var init := faces[..|faces| - 1];
      assert faces == init + [last];
      New(init, t, rotationOf)[last := FaceVertexUvs(t, last, rotationOf)]
  }

  /** Every face's UV list is as long as its vertex list, and its i-th entry
      is the UV of the i-th vertex. */
  lemma NewMatchesVertices(faces: seq<FaceId>, t: FaceTables, rotationOf: real -> Rotation2,
                           f: FaceId, i: nat)
    requires forall g :: g in faces ==> t.CanProject(g)
    requires f in faces && t.CanProject(f)
    requires i < |t.faceVertices[f]|
    ensures f in New(faces, t, rotationOf)
    ensures |New(faces, t, rotationOf)[f]| == |t.faceVertices[f]|
    ensures New(faces, t, rotationOf)[f][i]
            == VertexUv(t.faceVertices[f][i], t.facePlanes[f], t.faceTextureOffsets[f],
                        t.faceTextureRotations[f], rotationOf, t.faceTextureScales[f],
                        SizeVector(ResolveTextureSize(t.faceTextures[f], t.textures, t.textureSizes)))
  {
  }

  // ---------------------------------------------------------------------------
  // Real-arithmetic helpers

  lemma UndoDivisions(a: real, s: real, k: real)
    requires s != 0.0 && k != 0.0
    ensures a / s / k * s * k == a
  {
    DivTwice(a, s, k);
  }

  lemma DivTwice(a: real, s: real, k: real)
    requires s != 0.0 && k != 0.0
    ensures a / s / k == a / (s * k)
  {
  }

  lemma DivAdditive(a: real, b: real, s: real, k: real)
    requires s != 0.0 && k != 0.0
    ensures (a + b) / s / k == a / s / k + b / s / k
  {
    DivSum(a, b, s);
    DivSum(a / s, b / s, k);
  }

  /** The residual f(a + b) - f(a) - f(b) + f(0) of f(x) = x / s / k + o. */
  lemma AffineResidual(a: real, b: real, s: real, k: real, o: real)
    requires s != 0.0 && k != 0.0
    ensures ((a + b) / s / k + o) - (a / s / k + o) - (b / s / k + o) + (0.0 / s / k + o) == 0.0
  {
    DivAdditive(a, b, s, k);
  }

  lemma DivSum(a: real, b: real, s: real)
    requires s != 0.0
    ensures (a + b) / s == a / s + b / s
  {
  }

  lemma DotOverProduct(n: Vector3, w: Vector3, s: real, k: real)
    requires s != 0.0 && k != 0.0
    ensures Dot(n, w) / s / k == n.x / (s * k) * w.x + n.y / (s * k) * w.y + n.z / (s * k) * w.z
  {
    DivTwice(Dot(n, w), s, k);
  }
}
