/** The voxel volume (src/volume.cpp, src/volume.hpp).

    The volume owns three fields over the same grid: the truncated signed
    distance (a half-float texture), the color (RGBA8) and the fusion weight
    (16-bit unsigned). Each field is modelled as a flat array over the grid's
    voxels, x fastest, then y, then z; one index names the same voxel in all
    three. The fusion and ray-marching kernels are not part of this model:
    what integrate and draw contribute here is the configuration they hand to
    those kernels. */
module Volumes {
  import opened Vectors
  import opened Options

  /** Defaults of the rendering configuration. */
  const DefaultStepSize: real := 0.001
  const DefaultTruncMargin: real := 2.0
  /** 0 = true color, 1 = normals, 2 = Phong shading. */
  const DefaultDisplayMode: int := 0

  /** The divisor of the grid size that gives the number of compute work
      groups in x and in y. */
  const GroupSide: nat := 32
  /** Number of indices of the bounding box's triangle strip. */
  const StripLength: nat := 14

  type Byte = x: int | 0 <= x < 0x100
  type U16 = x: int | 0 <= x < 0x1_0000

  datatype Rgba = Rgba(r: Byte, g: Byte, b: Byte, a: Byte)

  /** What reset writes into every voxel. */
  const ClearDistance: real := 0.0
  const ClearColor: Rgba := Rgba(255, 255, 255, 255)
  const ClearWeight: U16 := 0

  datatype Dims = Dims(x: nat, y: nat, z: nat)

  function VoxelCount(d: Dims): nat { d.x * d.y * d.z }

  function DimsVec(d: Dims): Vec3 { Vec3(d.x as real, d.y as real, d.z as real) }

  // ---------------------------------------------------------------------------
  // Voxel addressing

  predicate InGrid(d: Dims, x: nat, y: nat, z: nat) { x < d.x && y < d.y && z < d.z }

  /** Multiplication by a natural number is monotone. */
  lemma {:induction false} MulMonotone(n: nat, p: nat, q: nat)
    ensures p <= q ==> n * p <= n * q
    decreases q
  {
    if p < q {
      MulMonotone(n, p, q - 1);
      assert n * q == n * (q - 1) + n;
    }
  }

  lemma RowBound(a: nat, b: nat, n: nat, m: nat)
    requires a < n && b < m
    ensures a + n * b < n * m
  {
    MulMonotone(n, b + 1, m);
    assert n * (b + 1) == n * b + n;
  }

  /** The position of voxel (x, y, z) in each of the three arrays. */
  function VoxelIndex(d: Dims, x: nat, y: nat, z: nat): (i: nat)
    requires InGrid(d, x, y, z)
    ensures i < VoxelCount(d)
  {
    RowBound(y, z, d.y, d.z);
    RowBound(x, y + d.y * z, d.x, d.y * d.z);
    assert d.x * (d.y * d.z) == VoxelCount(d);
    x + d.x * (y + d.y * z)
  }

  /** A digit below n and a multiple of n add up to a number from which both
      can be read back. */
  lemma UniqueSplit(a: nat, a': nat, n: nat, q: nat, q': nat)
    requires a < n && a' < n
    requires a + n * q == a' + n * q'
    ensures a == a' && q == q'
  {
    MulMonotone(n, q + 1, q');
    MulMonotone(n, q' + 1, q);
    assert n * (q + 1) == n * q + n;
    assert n * (q' + 1) == n * q' + n;
  }

  /** Two voxels share an array position only if they are the same voxel. */
  lemma VoxelIndexInjective(d: Dims, x: nat, y: nat, z: nat, x': nat, y': nat, z': nat)
    requires InGrid(d, x, y, z) && InGrid(d, x', y', z')
    requires VoxelIndex(d, x, y, z) == VoxelIndex(d, x', y', z')
    ensures x == x' && y == y' && z == z'
  {
    UniqueSplit(x, x', d.x, y + d.y * z, y' + d.y * z');
    UniqueSplit(y, y', d.y, z, z');
  }

  lemma NonEmptyGrid(d: Dims)
    requires VoxelCount(d) > 0
    ensures d.x > 0 && d.y > 0 && d.z > 0
  {
    assert d.x * d.y * d.z == 0 || (d.x != 0 && d.y != 0 && d.z != 0);
  }

  /** Every array position belongs to some voxel. */
  lemma VoxelIndexOnto(d: Dims, i: nat)
    requires i < VoxelCount(d)
    ensures exists x: nat, y: nat, z: nat :: InGrid(d, x, y, z) && VoxelIndex(d, x, y, z) == i
  {
    NonEmptyGrid(d);
    var q, x := Split(i, d.x);
    var z, y := Split(q, d.y);
    assert z < d.z by {
      MulMonotone(d.y, d.z, z);
      MulMonotone(d.x, d.y * d.z, q);
      assert d.x * (d.y * d.z) == VoxelCount(d);
    }
    assert VoxelIndex(d, x, y, z) == i;
  }

  /** Quotient and remainder of i by n, with i = r + n * q. */
  lemma Split(i: nat, n: nat) returns (q: nat, r: nat)
    requires n > 0
    ensures r < n && i == r + n * q
  {
    q, r := i / n, i % n;
  }

  // ---------------------------------------------------------------------------
  // Coordinate spaces

  /** The size of the whole grid in model units: dims * resolution. */
  function Extent(d: Dims, resolution: real): Vec3 { Scale(DimsVec(d), resolution) }

  /** The texture-to-model matrix as the constructor builds it: a scale by
      the extent, then a translation by -0.5 on the right, so that a point is
      first moved by -0.5 and then scaled: the two together scale by the
      extent and shift by minus half the extent. */
  function TextureToModel(d: Dims, resolution: real): (m: Affine)
    ensures m == Affine(Extent(d, resolution), Scale(Extent(d, resolution), -0.5))
  {
    TranslateBy(ScaleBy(Identity, Extent(d, resolution)), Splat(-0.5))
  }

  predicate NonDegenerate(d: Dims, resolution: real)
  {
    d.x > 0 && d.y > 0 && d.z > 0 && resolution != 0.0
  }

  /** The corners of the box the volume occupies, centred on the origin. */
  function BoxMin(d: Dims, resolution: real): Vec3 { Neg(Scale(DimsVec(d), resolution * 0.5)) }

  function BoxMax(d: Dims, resolution: real): Vec3 { Scale(DimsVec(d), resolution * 0.5) }

  /** Texture coordinate t lands at (t - 0.5) * dims * resolution in model
      space: texture coordinates 0 and 1 are the box's two extreme corners. */
  lemma TextureToModelMaps(d: Dims, resolution: real, t: Vec3)
    ensures Apply(TextureToModel(d, resolution), t) == Mul(Sub(t, Splat(0.5)), Extent(d, resolution))
    ensures Apply(TextureToModel(d, resolution), Splat(0.0)) == BoxMin(d, resolution)
    ensures Apply(TextureToModel(d, resolution), Splat(1.0)) == BoxMax(d, resolution)
  {
    var e := Extent(d, resolution);
    ApplyComponents(e, Scale(e, -0.5), t);
    ShiftAxis(e.x, t.x);
    ShiftAxis(e.y, t.y);
    ShiftAxis(e.z, t.z);
    CornerMaps(d, resolution, Splat(0.0));
    CornerMaps(d, resolution, Splat(1.0));
  }

  /** One coordinate: e t - e / 2 == (t - 1/2) e. */
  lemma ShiftAxis(e: real, t: real)
    ensures e * t + e * -0.5 == (t - 0.5) * e
  {
  }

  /** The product of non-zero reals is not zero. */
  lemma NonZeroProduct(a: real, b: real)
    requires a != 0.0 && b != 0.0
    ensures a * b != 0.0
  {
  }

  /** One coordinate of the inverse: its scale 1 / e, and its shift, -e/2
      divided by e and negated, which is 1/2. */
  lemma InverseAxis(e: real)
    requires e != 0.0
    ensures -((e * -0.5) / e) == 0.5
  {
  }

  lemma ReciprocalAxis(e: real, p: real)
    requires e != 0.0
    ensures (1.0 / e) * p == p / e
  {
  }

  /** The inverse of the texture-to-model matrix: scale by 1 / extent, then
      shift by one half. */
  lemma InverseOfTextureToModel(e: Vec3)
    requires NoZeroComponent(e)
    ensures Invertible(Affine(e, Scale(e, -0.5)))
    ensures Inverse(Affine(e, Scale(e, -0.5))) == Affine(Div(Splat(1.0), e), Splat(0.5))
  {
    InverseAxis(e.x);
    InverseAxis(e.y);
    InverseAxis(e.z);
  }

  lemma ReciprocalScale(e: Vec3, p: Vec3)
    requires NoZeroComponent(e)
    ensures Apply(Affine(Div(Splat(1.0), e), Splat(0.5)), p) == Add(Div(p, e), Splat(0.5))
  {
    ReciprocalAxis(e.x, p.x);
    ReciprocalAxis(e.y, p.y);
    ReciprocalAxis(e.z, p.z);
  }

  lemma InverseOfIdentity(p: Vec3)
    ensures Invertible(Identity) && Apply(Inverse(Identity), p) == p
  {
  }

  /** A grid with voxels along every axis and a non-zero resolution has an
      extent with no zero component. */
  lemma ExtentNonZero(d: Dims, resolution: real)
    requires NonDegenerate(d, resolution)
    ensures NoZeroComponent(Extent(d, resolution))
  {
    NonZeroProduct(d.x as real, resolution);
    NonZeroProduct(d.y as real, resolution);
    NonZeroProduct(d.z as real, resolution);
  }

  /** The camera's position in texture space, as draw computes it with the
      model matrix the identity: p / (dims * resolution) + 0.5, which the
      texture-to-model matrix takes back to p. */
  lemma ModelToTextureMaps(d: Dims, resolution: real, p: Vec3)
    requires NonDegenerate(d, resolution)
    ensures Invertible(TextureToModel(d, resolution))
    ensures NoZeroComponent(Extent(d, resolution))
    ensures var tex := Apply(Inverse(TextureToModel(d, resolution)), Apply(Inverse(Identity), p));
      tex == Add(Div(p, Extent(d, resolution)), Splat(0.5)) && Apply(TextureToModel(d, resolution), tex) == p
  {
    var e := Extent(d, resolution);
    ExtentNonZero(d, resolution);
    InverseOfIdentity(p);
    InverseOfTextureToModel(e);
    ReciprocalScale(e, p);
    BackToModel(e, p);
  }

  lemma BackToModel(e: Vec3, p: Vec3)
    requires NoZeroComponent(e)
    ensures Apply(Affine(e, Scale(e, -0.5)), Add(Div(p, e), Splat(0.5))) == p
  {
    ApplyComponents(e, Scale(e, -0.5), Add(Div(p, e), Splat(0.5)));
    BackAxis(e.x, p.x);
    BackAxis(e.y, p.y);
    BackAxis(e.z, p.z);
  }

  /** One coordinate back to model space: e (p / e + 1/2) - e / 2 == p. */
  lemma BackAxis(e: real, p: real)
    requires e != 0.0
    ensures e * (p / e + 0.5) + e * -0.5 == p
  {
  }

  // ---------------------------------------------------------------------------
  // The bounding box drawn to start the ray march

  datatype Vertex = Vertex(position: Vec3, texcoord: Vec3)

  /** The vertex table of createVolume: each corner of the box with its
      texture coordinate: vertex k carries texture coordinate k of
      BoxTexcoords and sits at the corner that coordinate names. */
  function BoxVertices(d: Dims, resolution: real): (vs: seq<Vertex>)
    ensures |vs| == 8
    ensures forall k :: 0 <= k < 8 ==> vs[k].texcoord == BoxTexcoords[k]
    ensures forall k :: 0 <= k < 8 ==> vs[k].position == CornerOf(BoxMin(d, resolution), BoxMax(d, resolution), BoxTexcoords[k])
  {
    var lo, hi := BoxMin(d, resolution), BoxMax(d, resolution);
    [ Vertex(Vec3(hi.x, hi.y, hi.z), Vec3(1.0, 1.0, 1.0)),
      Vertex(Vec3(lo.x, hi.y, hi.z), Vec3(0.0, 1.0, 1.0)),
      Vertex(Vec3(hi.x, hi.y, lo.z), Vec3(1.0, 1.0, 0.0)),
      Vertex(Vec3(lo.x, hi.y, lo.z), Vec3(0.0, 1.0, 0.0)),
      Vertex(Vec3(hi.x, lo.y, hi.z), Vec3(1.0, 0.0, 1.0)),
      Vertex(Vec3(lo.x, lo.y, hi.z), Vec3(0.0, 0.0, 1.0)),
      Vertex(Vec3(lo.x, lo.y, lo.z), Vec3(0.0, 0.0, 0.0)),
      Vertex(Vec3(hi.x, lo.y, lo.z), Vec3(1.0, 0.0, 0.0)) ]
  }

  /** The index table of createVolume: one triangle strip. */
  const BoxIndices: seq<nat> := [3, 2, 6, 7, 4, 2, 0, 3, 1, 6, 5, 4, 1, 0]

  /** The texture coordinates of the vertex table, which do not depend on
      the volume's size. */
  const BoxTexcoords: seq<Vec3> :=
    [ Vec3(1.0, 1.0, 1.0), Vec3(0.0, 1.0, 1.0), Vec3(1.0, 1.0, 0.0), Vec3(0.0, 1.0, 0.0),
      Vec3(1.0, 0.0, 1.0), Vec3(0.0, 0.0, 1.0), Vec3(0.0, 0.0, 0.0), Vec3(1.0, 0.0, 0.0) ]

  predicate IsUnit(c: real) { c == 0.0 || c == 1.0 }

  predicate IsUnitCorner(t: Vec3) { IsUnit(t.x) && IsUnit(t.y) && IsUnit(t.z) }

  /** The corner of the box a unit texture coordinate stands for. */
  function CornerOf(lo: Vec3, hi: Vec3, t: Vec3): Vec3
  {
    Vec3(if t.x == 1.0 then hi.x else lo.x, if t.y == 1.0 then hi.y else lo.y, if t.z == 1.0 then hi.z else lo.z)
  }

  /** One coordinate of a unit texture coordinate, carried to model space. */
  lemma CornerAxis(n: real, resolution: real, t: real)
    requires IsUnit(t)
    ensures (n * resolution) * t + (n * resolution) * -0.5 == if t == 1.0 then n * (resolution * 0.5) else -(n * (resolution * 0.5))
  {
    var e := n * resolution;
    assert n * (resolution * 0.5) == e * 0.5;
    if t == 1.0 {
      assert e * t == e;
    } else {
      assert t == 0.0;
      assert e * t == 0.0;
    }
  }

  /** The texture-to-model matrix takes each unit texture coordinate to the
      corner of the box it stands for. */
  lemma CornerMaps(d: Dims, resolution: real, t: Vec3)
    requires IsUnitCorner(t)
    ensures Apply(TextureToModel(d, resolution), t) == CornerOf(BoxMin(d, resolution), BoxMax(d, resolution), t)
  {
    var e := Extent(d, resolution);
    var a := Apply(TextureToModel(d, resolution), t);
    ApplyComponents(e, Scale(e, -0.5), t);
    var c := CornerOf(BoxMin(d, resolution), BoxMax(d, resolution), t);
    CornerAxis(d.x as real, resolution, t.x);
    CornerAxis(d.y as real, resolution, t.y);
    CornerAxis(d.z as real, resolution, t.z);
    assert a.x == c.x;
    assert a.y == c.y;
    assert a.z == c.z;
  }

  lemma ApplyComponents(e: Vec3, h: Vec3, t: Vec3)
    ensures Apply(Affine(e, h), t) == Vec3(e.x * t.x + h.x, e.y * t.y + h.y, e.z * t.z + h.z)
  {
  }

  /** Every vertex of the table is the corner its texture coordinate names,
      where the texture-to-model matrix puts that coordinate. */
  lemma BoxVerticesMatchTexcoords(d: Dims, resolution: real, k: nat)
    requires k < 8
    ensures BoxVertices(d, resolution)[k].texcoord == BoxTexcoords[k]
    ensures IsUnitCorner(BoxTexcoords[k])
    ensures BoxVertices(d, resolution)[k].position == CornerOf(BoxMin(d, resolution), BoxMax(d, resolution), BoxTexcoords[k])
    ensures BoxVertices(d, resolution)[k].position == Apply(TextureToModel(d, resolution), BoxTexcoords[k])
  {
    CornerMaps(d, resolution, BoxTexcoords[k]);
  }

  /** The table holds all eight corners of the unit cube, each once. */
  lemma BoxTexcoordsAreTheCorners()
    ensures forall i, j :: 0 <= i < j < 8 ==> BoxTexcoords[i] != BoxTexcoords[j]
    ensures forall t :: IsUnitCorner(t) ==> t in BoxTexcoords
  {
  }

  /** Every index of the strip names a vertex of the table. */
  lemma BoxIndicesInRange()
    ensures |BoxIndices| == StripLength
    ensures forall i :: 0 <= i < |BoxIndices| ==> BoxIndices[i] < 8
  {
  }

  /** The faces of the box: an axis (0, 1, 2 for x, y, z) and a side (the
      texture coordinate, 0 or 1, shared by the face's corners). */
  datatype Face = Face(axis: nat, side: real)

  predicate OnFace(t: Vec3, f: Face)
  {
    (f.axis == 0 && t.x == f.side) || (f.axis == 1 && t.y == f.side) || (f.axis == 2 && t.z == f.side)
  }

  /** The face that three corners share, if they share one. */
  function SharedFace(a: Vec3, b: Vec3, c: Vec3): (r: Option<Face>)
    ensures r.Some? ==> OnFace(a, r.value) && OnFace(b, r.value) && OnFace(c, r.value)
  {
    if a.x == b.x == c.x then Some(Face(0, a.x))
    else if a.y == b.y == c.y then Some(Face(1, a.y))
    else if a.z == b.z == c.z then Some(Face(2, a.z))
    else None
  }

  /** The vertex numbers of triangle k of the strip. */
  function StripTriangle(k: nat): (nat, nat, nat)
    requires k < 12
  {
    (BoxIndices[k], BoxIndices[k + 1], BoxIndices[k + 2])
  }

  /** The face triangle k of the strip lies on, if any. */
  function StripTriangleFace(k: nat): Option<Face>
    requires k < 12
  {
    var (a, b, c) := StripTriangle(k);
    SharedFace(BoxTexcoords[a], BoxTexcoords[b], BoxTexcoords[c])
  }

  /** How many of the first n triangles of the strip lie on face f. */
  function FaceCount(f: Face, n: nat): nat
    requires n <= 12
  {
    if n == 0 then 0 else FaceCount(f, n - 1) + (if StripTriangleFace(n - 1) == Some(f) then 1 else 0)
  }

  /** The strip's twelve triangles each join three distinct corners lying on
      one face of the box. */
  lemma StripTrianglesLieOnFaces()
    ensures forall k :: 0 <= k < 12 ==>
      var (a, b, c) := StripTriangle(k); a != b && b != c && a != c && StripTriangleFace(k).Some?
  {
  }

  /** The faces of the first and of the last six triangles of the strip. */
  lemma StripFacesFirstHalf()
    ensures StripTriangleFace(0) == Some(Face(2, 0.0))
    ensures StripTriangleFace(1) == Some(Face(2, 0.0))
    ensures StripTriangleFace(2) == Some(Face(1, 0.0))
    ensures StripTriangleFace(3) == Some(Face(0, 1.0))
    ensures StripTriangleFace(4) == Some(Face(0, 1.0))
    ensures StripTriangleFace(5) == Some(Face(1, 1.0))
  {
  }

  lemma StripFacesSecondHalf()
    ensures StripTriangleFace(6) == Some(Face(1, 1.0))
    ensures StripTriangleFace(7) == Some(Face(0, 0.0))
    ensures StripTriangleFace(8) == Some(Face(0, 0.0))
    ensures StripTriangleFace(9) == Some(Face(1, 0.0))
    ensures StripTriangleFace(10) == Some(Face(2, 1.0))
    ensures StripTriangleFace(11) == Some(Face(2, 1.0))
  {
  }

  /** The count after the first six triangles and after all twelve. */
  lemma FaceCountFirstHalf(f: Face)
    ensures FaceCount(f, 6) ==
      (if Face(2, 0.0) == f then 2 else 0) + (if Face(1, 0.0) == f then 1 else 0)
      + (if Face(0, 1.0) == f then 2 else 0) + (if Face(1, 1.0) == f then 1 else 0)
  {
    StripFacesFirstHalf();
    FaceCountStep(f, 1); FaceCountStep(f, 2); FaceCountStep(f, 3);
    FaceCountStep(f, 4); FaceCountStep(f, 5); FaceCountStep(f, 6);
  }

  lemma FaceCountSecondHalf(f: Face)
    ensures FaceCount(f, 12) == FaceCount(f, 6)
      + (if Face(1, 1.0) == f then 1 else 0) + (if Face(0, 0.0) == f then 2 else 0)
      + (if Face(1, 0.0) == f then 1 else 0) + (if Face(2, 1.0) == f then 2 else 0)
  {
    StripFacesSecondHalf();
    FaceCountStep(f, 7); FaceCountStep(f, 8); FaceCountStep(f, 9);
    FaceCountStep(f, 10); FaceCountStep(f, 11); FaceCountStep(f, 12);
  }

  lemma FaceCountStep(f: Face, n: nat)
    requires 1 <= n <= 12
    ensures FaceCount(f, n) == FaceCount(f, n - 1) + if StripTriangleFace(n - 1) == Some(f) then 1 else 0
  {
  }

  /** Each of the six faces is covered by exactly two triangles of the strip:
      the strip draws the whole surface of the box. */
  lemma StripCoversEveryFace()
    ensures forall f: Face :: f.axis < 3 && IsUnit(f.side) ==> FaceCount(f, 12) == 2
  {
    forall f: Face | f.axis < 3 && IsUnit(f.side)
      ensures FaceCount(f, 12) == 2
    {
      FaceCountFirstHalf(f);
      FaceCountSecondHalf(f);
    }
  }

  // ---------------------------------------------------------------------------
  // The configuration handed to the kernels

  /** What integrate sets up for the fusion kernel: the number of work
      groups, the model matrix, the intrinsic matrix and the truncation
      margin in model units. */
  datatype Dispatch = Dispatch(groups: Dims, model: Affine, intrinsic: Mat3, truncMargin: real)

  /** What draw sets up for the ray-marching kernel. */
  datatype DrawCall = DrawCall(cameraPosTexSpace: Vec3, volumeDims: Dims, stepSize: real, displayMode: int, indexCount: nat)

  /** Fills a whole array with one value, as clearing a texture does. */
  method Fill<T>(a: array<T>, value: T)
    modifies a
    ensures forall i :: 0 <= i < a.Length ==> a[i] == value
  {
    var i := 0;
    while i < a.Length
      invariant 0 <= i <= a.Length
      invariant forall j :: 0 <= j < i ==> a[j] == value
    {
      a[i] := value;
      i := i + 1;
    }
  }

  class Volume {
    const dims: Dims
    const resolution: real
    const offset: Vec3
    const frameWidth: nat
    const frameHeight: nat

    const model: Affine
    const textureToModel: Affine
    /** The truncation margin the constructor hands to the fusion kernel. */
    const integrateTruncMargin: real

    const tsdf: array<real>
    const color: array<Rgba>
    const weight: array<U16>

    var stepSize: real
    var truncMargin: real
    var displayMode: int

    /** The three fields cover the same grid, and the fixed matrices and
        margin are those the constructor computed. */
    ghost predicate Valid()
      reads this
    {
      && tsdf.Length == VoxelCount(dims)
      && color.Length == VoxelCount(dims)
      && weight.Length == VoxelCount(dims)
      && model == Identity
      && textureToModel == TextureToModel(dims, resolution)
      && integrateTruncMargin == resolution * DefaultTruncMargin
    }

    /** Every voxel of every field holds its reset value. */
    ghost predicate Cleared()
      reads this, tsdf, color, weight
    {
      && (forall i :: 0 <= i < tsdf.Length ==> tsdf[i] == ClearDistance)
      && (forall i :: 0 <= i < color.Length ==> color[i] == ClearColor)
      && (forall i :: 0 <= i < weight.Length ==> weight[i] == ClearWeight)
    }

    /** The distance, color and weight of one voxel, read at the same index
        of the three arrays. */
    function VoxelAt(x: nat, y: nat, z: nat): (real, Rgba, U16)
      reads this, tsdf, color, weight
      requires Valid() && InGrid(dims, x, y, z)
    {
      var i := VoxelIndex(dims, x, y, z);
      (tsdf[i], color[i], weight[i])
    }

    constructor (dims: Dims, resolution: real, offset: Vec3, frameWidth: nat, frameHeight: nat)
      ensures Valid() && Cleared()
      ensures this.dims == dims && this.resolution == resolution && this.offset == offset
      ensures this.frameWidth == frameWidth && this.frameHeight == frameHeight
      ensures stepSize == DefaultStepSize && truncMargin == DefaultTruncMargin && displayMode == DefaultDisplayMode
      ensures fresh(tsdf) && fresh(color) && fresh(weight)
    {
      this.dims := dims;
      this.resolution := resolution;
      this.offset := offset;
      this.frameWidth := frameWidth;
      this.frameHeight := frameHeight;
      stepSize := DefaultStepSize;
      truncMargin := DefaultTruncMargin;
      displayMode := DefaultDisplayMode;
      model := Identity;
      textureToModel := TranslateBy(ScaleBy(Identity, Scale(DimsVec(dims), resolution)), Splat(-0.5));
      integrateTruncMargin := resolution * DefaultTruncMargin;
      var n := dims.x * dims.y * dims.z;
      tsdf := new real[n];
      color := new Rgba[n];
      weight := new U16[n];
      new;
      Reset();
    }

    /** Clears the three fields in one call: distance 0, color opaque white,
        weight 0. Nothing else changes. */
    method Reset()
      modifies tsdf, color, weight
      ensures Cleared()
    {
      Fill(tsdf, ClearDistance);
      Fill(color, ClearColor);
      Fill(weight, ClearWeight);
    }

    /** The parameters as the integration window reads them back. */
    function GetStepSize(): (r: real)
      reads this
      ensures r == stepSize
    {
      stepSize
    }

    function GetTruncMargin(): (r: real)
      reads this
      ensures r == truncMargin
    {
      truncMargin
    }

    function GetDisplayMode(): (r: int)
      reads this
      ensures r == displayMode
    {
      displayMode
    }

    method SetStepSize(s: real)
      modifies this`stepSize
      ensures GetStepSize() == s
      ensures GetTruncMargin() == old(GetTruncMargin()) && GetDisplayMode() == old(GetDisplayMode())
    {
      stepSize := s;
    }

    method SetTruncMargin(m: real)
      modifies this`truncMargin
      ensures GetTruncMargin() == m
      ensures GetStepSize() == old(GetStepSize()) && GetDisplayMode() == old(GetDisplayMode())
    {
      truncMargin := m;
    }

    /** Any int is stored: nothing checks it against the three modes. */
    method SetDisplayMode(d: int)
      modifies this`displayMode
      ensures GetDisplayMode() == d
      ensures GetStepSize() == old(GetStepSize()) && GetTruncMargin() == old(GetTruncMargin())
    {
      displayMode := d;
    }

    /** The fusion dispatch: dims.x / 32 and dims.y / 32 work groups, rounded
        down, and dims.z in z; the margin is the one the constructor computed
        from the default, not the current truncMargin. The kernel writes the
        three fields; what it writes is not part of this model, so their
        contents afterwards are left open. */
    method Integrate(intrinsic: Mat3) returns (call: Dispatch)
      requires Valid()
      modifies tsdf, color, weight
      ensures call.truncMargin == resolution * DefaultTruncMargin
      ensures call.model == Identity && call.intrinsic == intrinsic
      ensures call.groups.z == dims.z
      ensures GroupSide * call.groups.x <= dims.x < GroupSide * (call.groups.x + 1)
      ensures GroupSide * call.groups.y <= dims.y < GroupSide * (call.groups.y + 1)
    {
      call := Dispatch(Dims(dims.x / GroupSide, dims.y / GroupSide, dims.z), model, intrinsic, integrateTruncMargin);
    }

    /** The ray-march draw: the camera's position carried into texture space,
        and the step size and display mode as they are at this call. */
    method Draw(cameraPosition: Vec3) returns (call: DrawCall)
      requires Valid() && NonDegenerate(dims, resolution)
      ensures NoZeroComponent(Extent(dims, resolution))
      ensures call.cameraPosTexSpace == Add(Div(cameraPosition, Extent(dims, resolution)), Splat(0.5))
      ensures Apply(TextureToModel(dims, resolution), call.cameraPosTexSpace) == cameraPosition
      ensures call.volumeDims == dims && call.indexCount == StripLength
      ensures call.stepSize == stepSize && call.displayMode == displayMode
    {
      ModelToTextureMaps(dims, resolution, cameraPosition);
      var camPos := Apply(Inverse(textureToModel), Apply(Inverse(model), cameraPosition));
      call := DrawCall(camPos, dims, stepSize, displayMode, StripLength);
    }
  }

  /** One voxel after reset: the same cleared values in all three fields. */
  lemma ClearedVoxel(v: Volume, x: nat, y: nat, z: nat)
    requires v.Valid() && v.Cleared() && InGrid(v.dims, x, y, z)
    ensures v.VoxelAt(x, y, z) == (ClearDistance, ClearColor, ClearWeight)
  {
  }
}
