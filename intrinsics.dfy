/** The pinhole intrinsics of the application (src/app.cpp): the matrix the
    main loop builds from fx, fy, cx, cy and the skew factor, and the tie that
    keeps the two focal lengths equal while they are edited. */
module Intrinsics {
  import opened Vectors

  /** Defaults: a focal length of 585 pixels and the principal point in the
      middle of the 640x480 frame, no skew. */
  const DefaultFx: real := 585.0
  const DefaultFy: real := 585.0
  const DefaultCx: real := 640.0 / 2.0
  const DefaultCy: real := 480.0 / 2.0
  const DefaultSkew: real := 0.0

  /** The matrix as the main loop fills it: start from zero and set the
      entries [column][row] one by one. Column by column it holds
      (fx, 0, 0), (s, fy, 0) and (cx, cy, 1), and nothing is left over from
      the zero matrix it started from, nor overwritten by a later entry. */
  function IntrinsicMatrix(fx: real, fy: real, cx: real, cy: real, s: real): (k: Mat3)
    ensures k == Mat3(Vec3(fx, 0.0, 0.0), Vec3(s, fy, 0.0), Vec3(cx, cy, 1.0))
  {
    var m := Zero3;
    var m := SetEntry(m, 0, 0, fx);
    var m := SetEntry(m, 1, 1, fy);
    var m := SetEntry(m, 2, 0, cx);
    var m := SetEntry(m, 2, 1, cy);
    var m := SetEntry(m, 1, 0, s);
    var m := SetEntry(m, 2, 2, 1.0);
    m
  }

  /** The textbook pinhole projection with skew, written independently of
      any matrix: pixel coordinates of a camera-space point in front of the
      camera. */
  function Pinhole(fx: real, fy: real, cx: real, cy: real, s: real, p: Vec3): (real, real)
    requires p.z != 0.0
  {
    (fx * (p.x / p.z) + s * (p.y / p.z) + cx, fy * (p.y / p.z) + cy)
  }

  /** Perspective division of a homogeneous image point. */
  function Dehomogenize(h: Vec3): (real, real)
    requires h.z != 0.0
  {
    (h.x / h.z, h.y / h.z)
  }

  /** The matrix, applied to a camera-space point and divided by the third
      coordinate, performs the pinhole projection; the third coordinate is
      the point's depth unchanged. So, read by rows, it is the upper
      triangular [[fx, s, cx], [0, fy, cy], [0, 0, 1]]. */
  lemma IntrinsicMatrixProjects(fx: real, fy: real, cx: real, cy: real, s: real, p: Vec3)
    ensures MatVec(IntrinsicMatrix(fx, fy, cx, cy, s), p).z == p.z
    ensures p.z != 0.0 ==>
      Dehomogenize(MatVec(IntrinsicMatrix(fx, fy, cx, cy, s), p)) == Pinhole(fx, fy, cx, cy, s, p)
  {
    MatVecOfIntrinsic(fx, fy, cx, cy, s, p);
    if p.z != 0.0 {
      DividedRows(fx, fy, cx, cy, s, p);
    }
  }

  /** The rows of the image point, divided by its third coordinate. */
  lemma DividedRows(fx: real, fy: real, cx: real, cy: real, s: real, p: Vec3)
    requires p.z != 0.0
    ensures Dehomogenize(Vec3(fx * p.x + s * p.y + cx * p.z, fy * p.y + cy * p.z, p.z)) == Pinhole(fx, fy, cx, cy, s, p)
  {
    var d := Dehomogenize(Vec3(fx * p.x + s * p.y + cx * p.z, fy * p.y + cy * p.z, p.z));
    var q := Pinhole(fx, fy, cx, cy, s, p);
    ProjectX(fx, s, cx, p.x, p.y, p.z);
    assert d.0 == q.0;
    ProjectY(fy, cy, p.y, p.z);
    assert d.1 == q.1;
  }

  /** The matrix applied to a point, row by row. */
  lemma MatVecOfIntrinsic(fx: real, fy: real, cx: real, cy: real, s: real, p: Vec3)
    ensures MatVec(IntrinsicMatrix(fx, fy, cx, cy, s), p) == Vec3(fx * p.x + s * p.y + cx * p.z, fy * p.y + cy * p.z, p.z)
  {
  }

  /** The first row divided by the depth. */
  lemma ProjectX(a: real, b: real, c: real, x: real, y: real, z: real)
    requires z != 0.0
    ensures (a * x + b * y + c * z) / z == a * (x / z) + b * (y / z) + c
  {
    var u, v := x / z, y / z;
    assert x == u * z && y == v * z;
    assert a * x + b * y + c * z == (a * u + b * v + c) * z;
    CancelDepth(a * u + b * v + c, z);
  }

  /** The second row divided by the depth. */
  lemma ProjectY(b: real, c: real, y: real, z: real)
    requires z != 0.0
    ensures (b * y + c * z) / z == b * (y / z) + c
  {
    var v := y / z;
    assert y == v * z;
    assert b * y + c * z == (b * v + c) * z;
    CancelDepth(b * v + c, z);
  }

  lemma CancelDepth(a: real, z: real)
    requires z != 0.0
    ensures (a * z) / z == a
  {
  }

  /** The principal point is where the optical axis lands. */
  lemma OpticalAxisHitsPrincipalPoint(fx: real, fy: real, cx: real, cy: real, s: real, depth: real)
    requires depth != 0.0
    ensures Dehomogenize(MatVec(IntrinsicMatrix(fx, fy, cx, cy, s), Vec3(0.0, 0.0, depth))) == (cx, cy)
  {
    IntrinsicMatrixProjects(fx, fy, cx, cy, s, Vec3(0.0, 0.0, depth));
  }

  /** What one pass of the "fx" or "fy" slider does to its value: left
      alone, or set to a new value. */
  datatype SliderInput = Untouched | Set(value: real)

  function Slid(current: real, input: SliderInput): real
  {
    match input
    case Untouched => current
    case Set(v) => v
  }

  datatype FocalLengths = FocalLengths(fx: real, fy: real)

  /** One pass of the intrinsics panel over the focal lengths, in the order
      the panel runs: the fx slider, the tie, the fy slider, the tie again. */
  function EditFocalLengths(f: FocalLengths, tie: bool, fxInput: SliderInput, fyInput: SliderInput): (r: FocalLengths)
    ensures tie ==> r.fx == r.fy
    ensures tie ==> r.fy == (if fyInput.Set? then fyInput.value else if fxInput.Set? then fxInput.value else f.fx)
    ensures !tie ==> r == FocalLengths(Slid(f.fx, fxInput), Slid(f.fy, fyInput))
  {
    var fx := Slid(f.fx, fxInput);
    var fy := if tie then fx else f.fy;
    var fy := Slid(fy, fyInput);
    var fx := if tie then fy else fx;
    FocalLengths(fx, fy)
  }

  /** With the tie on and nothing edited, the panel copies fx into fy. */
  lemma TieCopiesFx(f: FocalLengths)
    ensures EditFocalLengths(f, true, Untouched, Untouched) == FocalLengths(f.fx, f.fx)
  {
  }

  /** With the tie on, the fy slider is read after the fx slider: when both
      are moved in one pass, the fy value ends up in both lengths. */
  lemma FyEditWinsWhenTied(f: FocalLengths, a: real, b: real)
    ensures EditFocalLengths(f, true, Set(a), Set(b)) == FocalLengths(b, b)
  {
  }
}
