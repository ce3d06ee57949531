/** The small part of the vector and matrix library that the camera and the
    volume rely on. Reals stand in for single-precision floats throughout.

    Every 4x4 matrix the volume builds is the identity, a scale, a translation
    or a product of these, so such a matrix is represented here by the affine
    map it denotes, p |-> scale * p + shift (componentwise). */
module Vectors {

  datatype Vec3 = Vec3(x: real, y: real, z: real)

  function Splat(k: real): Vec3 { Vec3(k, k, k) }

  function Add(a: Vec3, b: Vec3): Vec3 { Vec3(a.x + b.x, a.y + b.y, a.z + b.z) }

  function Sub(a: Vec3, b: Vec3): Vec3 { Vec3(a.x - b.x, a.y - b.y, a.z - b.z) }

  function Neg(a: Vec3): Vec3 { Vec3(-a.x, -a.y, -a.z) }

  /** Vector times scalar. */
  function Scale(a: Vec3, k: real): Vec3 { Vec3(a.x * k, a.y * k, a.z * k) }

  /** Componentwise product. */
  function Mul(a: Vec3, b: Vec3): Vec3 { Vec3(a.x * b.x, a.y * b.y, a.z * b.z) }

  predicate NoZeroComponent(a: Vec3) { a.x != 0.0 && a.y != 0.0 && a.z != 0.0 }

  /** Componentwise quotient. */
  function Div(a: Vec3, b: Vec3): Vec3
    requires NoZeroComponent(b)
  {
    Vec3(a.x / b.x, a.y / b.y, a.z / b.z)
  }

  /** A 4x4 matrix that is a product of scalings and translations. */
  datatype Affine = Affine(scale: Vec3, shift: Vec3)

  /** Multiplication of the homogeneous point (p, 1) by the matrix. */
  function Apply(m: Affine, p: Vec3): Vec3 { Add(Mul(m.scale, p), m.shift) }

  const Identity: Affine := Affine(Splat(1.0), Splat(0.0))

  /** The library's scale(m, s): m times a scaling matrix, so the scaling
      is applied to a point first. */
  function ScaleBy(m: Affine, s: Vec3): (r: Affine)
    ensures forall p :: Apply(r, p) == Apply(m, Mul(s, p))
  {
    Affine(Mul(m.scale, s), m.shift)
  }

  /** The library's translate(m, v): m times a translation matrix, so the
      translation is applied to a point first. */
  function TranslateBy(m: Affine, v: Vec3): (r: Affine)
    ensures forall p :: Apply(r, p) == Apply(m, Add(p, v))
  {
    Affine(m.scale, Add(Mul(m.scale, v), m.shift))
  }

  predicate Invertible(m: Affine) { NoZeroComponent(m.scale) }

  /** The library's inverse, for a matrix of this form. */
  function Inverse(m: Affine): (r: Affine)
    requires Invertible(m)
    ensures Invertible(r)
    ensures forall p :: Apply(r, Apply(m, p)) == p
    ensures forall p :: Apply(m, Apply(r, p)) == p
  {
    Affine(Div(Splat(1.0), m.scale), Neg(Div(m.shift, m.scale)))
  }

  /** A 3x3 matrix stored column by column, as the library stores it:
      entry [c][r] is row r of column c. */
  datatype Mat3 = Mat3(c0: Vec3, c1: Vec3, c2: Vec3)

  const Zero3: Mat3 := Mat3(Splat(0.0), Splat(0.0), Splat(0.0))

  function Column(m: Mat3, c: nat): Vec3
    requires c < 3
  {
    if c == 0 then m.c0 else if c == 1 then m.c1 else m.c2
  }

  function Component(v: Vec3, r: nat): real
    requires r < 3
  {
    if r == 0 then v.x else if r == 1 then v.y else v.z
  }

  function WithComponent(v: Vec3, r: nat, value: real): (w: Vec3)
    requires r < 3
    ensures Component(w, r) == value
    ensures forall k :: 0 <= k < 3 && k != r ==> Component(w, k) == Component(v, k)
  {
    if r == 0 then v.(x := value) else if r == 1 then v.(y := value) else v.(z := value)
  }

  /** Entry [c][r]. */
  function Entry(m: Mat3, c: nat, r: nat): real
    requires c < 3 && r < 3
  {
    Component(Column(m, c), r)
  }

  /** The assignment m[c][r] = value. */
  function SetEntry(m: Mat3, c: nat, r: nat, value: real): (n: Mat3)
    requires c < 3 && r < 3
    ensures Entry(n, c, r) == value
    ensures forall c', r' :: 0 <= c' < 3 && 0 <= r' < 3 && (c', r') != (c, r) ==> Entry(n, c', r') == Entry(m, c', r')
  {
    if c == 0 then m.(c0 := WithComponent(m.c0, r, value))
    else if c == 1 then m.(c1 := WithComponent(m.c1, r, value))
    else m.(c2 := WithComponent(m.c2, r, value))
  }

  /** Matrix times column vector: the columns weighted by the vector's components. */
  function MatVec(m: Mat3, v: Vec3): Vec3
  {
    Add(Add(Scale(m.c0, v.x), Scale(m.c1, v.y)), Scale(m.c2, v.z))
  }
}
