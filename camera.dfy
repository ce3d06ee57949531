/** The first-person camera (src/camera.cpp, src/camera.hpp).

    The camera keeps a position, a yaw and a pitch in degrees, and the front,
    right and up vectors derived from the two angles. Deriving them takes
    trigonometry and normalisation; here the derivation is an Orientation
    function handed to the camera when it is made, about which nothing is
    assumed. */
module Cameras {
  import opened Vectors

  const WorldUp: Vec3 := Vec3(0.0, 1.0, 0.0)
  const CameraSpeed: real := 3.0
  const CameraSensitivity: real := 0.07
  const CameraFov: real := 70.0
  /** Pitch is kept within this many degrees of the horizon. */
  const PitchLimit: real := 89.9

  datatype MoveDirection = Forward | Backward | Left | Right | Up | Down

  datatype Basis = Basis(front: Vec3, right: Vec3, up: Vec3)

  /** The basis vectors for a yaw and a pitch. */
  type Orientation = (real, real) -> Basis

  datatype Angles = Angles(yaw: real, pitch: real)

  function Min(a: real, b: real): real { if a <= b then a else b }

  function Max(a: real, b: real): real { if a >= b then a else b }

  /** The pitch clamp of look: a value within the limit is kept as it is,
      any other becomes the nearer limit. */
  function ClampPitch(pitch: real): (r: real)
    ensures -PitchLimit <= r <= PitchLimit
    ensures -PitchLimit <= pitch <= PitchLimit ==> r == pitch
    ensures pitch > PitchLimit ==> r == PitchLimit
    ensures pitch < -PitchLimit ==> r == -PitchLimit
  {
    Max(-PitchLimit, Min(pitch, PitchLimit))
  }

  /** The angles after look(xoffset, yoffset): the yaw takes the horizontal
      offset times the sensitivity, unclamped; the pitch takes the vertical
      one, clamped into the limit. */
  function Looked(a: Angles, sensitivity: real, xoffset: real, yoffset: real): (r: Angles)
    ensures r.yaw - a.yaw == sensitivity * xoffset
    ensures -PitchLimit <= r.pitch <= PitchLimit
    ensures var p := a.pitch + sensitivity * yoffset;
      r.pitch == if p > PitchLimit then PitchLimit else if p < -PitchLimit then -PitchLimit else p
  {
    Angles(a.yaw + xoffset * sensitivity, ClampPitch(a.pitch + yoffset * sensitivity))
  }

  /** The position after move(dir, dt): a step along front, right or the
      world's up axis, by plus or minus speed * dt. */
  function Moved(position: Vec3, b: Basis, speed: real, dir: MoveDirection, dt: real): (r: Vec3)
    ensures var axis := if dir in {Forward, Backward} then b.front else if dir in {Right, Left} then b.right else WorldUp;
      var sign := if dir in {Forward, Right, Up} then 1.0 else -1.0;
      r == Add(position, Scale(axis, sign * (speed * dt)))
  {
    var v := speed * dt;
    match dir
    case Forward => Add(position, Scale(b.front, v))
    case Backward => Sub(position, Scale(b.front, v))
    case Right => Add(position, Scale(b.right, v))
    case Left => Sub(position, Scale(b.right, v))
    case Up => Add(position, Scale(WorldUp, v))
    case Down => Sub(position, Scale(WorldUp, v))
  }

  function Opposite(dir: MoveDirection): MoveDirection
  {
    match dir
    case Forward => Backward
    case Backward => Forward
    case Right => Left
    case Left => Right
    case Up => Down
    case Down => Up
  }

  class Camera {
    var position: Vec3
    var yaw: real
    var pitch: real

    var front: Vec3
    var up: Vec3
    var right: Vec3

    var moveSpeed: real
    var sensitivity: real
    var fov: real

    /** Stands for updateVectors' trigonometry. */
    const orientation: Orientation

    /** The basis vectors are those of the current angles. */
    ghost predicate Valid()
      reads this
    {
      CurrentBasis() == orientation(yaw, pitch)
    }

    function CurrentBasis(): Basis
      reads this
    {
      Basis(front, right, up)
    }

    function CurrentAngles(): Angles
      reads this
    {
      Angles(yaw, pitch)
    }

    /** The default camera: two units along +z, looking down -z. */
    constructor (orientation: Orientation)
      ensures Valid()
      ensures position == Vec3(0.0, 0.0, 2.0) && yaw == -90.0 && pitch == 0.0
      ensures moveSpeed == CameraSpeed && sensitivity == CameraSensitivity && fov == CameraFov
      ensures this.orientation == orientation
    {
      this.orientation := orientation;
      position := Vec3(0.0, 0.0, 2.0);
      yaw := -90.0;
      pitch := 0.0;
      moveSpeed := CameraSpeed;
      sensitivity := CameraSensitivity;
      fov := CameraFov;
      new;
      UpdateVectors();
    }

    /** A camera at a given place and orientation; the pitch is stored as
        given, without the clamp that look applies. */
    constructor At(position: Vec3, yaw: real, pitch: real, orientation: Orientation)
      ensures Valid()
      ensures this.position == position && this.yaw == yaw && this.pitch == pitch
      ensures moveSpeed == CameraSpeed && sensitivity == CameraSensitivity && fov == CameraFov
      ensures this.orientation == orientation
    {
      this.orientation := orientation;
      this.position := position;
      this.yaw := yaw;
      this.pitch := pitch;
      moveSpeed := CameraSpeed;
      sensitivity := CameraSensitivity;
      fov := CameraFov;
      new;
      UpdateVectors();
    }

    method UpdateVectors()
      modifies this`front, this`right, this`up
      ensures Valid()
    {
      var b := orientation(yaw, pitch);
      front := b.front;
      right := b.right;
      up := b.up;
    }

    /** Moves along the current basis, or along the world's up axis, by
        moveSpeed * dt. Nothing but the position changes. */
    method Move(dir: MoveDirection, dt: real)
      requires Valid()
      modifies this`position
      ensures Valid()
      ensures position == Moved(old(position), CurrentBasis(), moveSpeed, dir, dt)
    {
      var v := moveSpeed * dt;
      match dir {
        case Forward => position := Add(position, Scale(front, v));
        case Backward => position := Sub(position, Scale(front, v));
        case Right => position := Add(position, Scale(right, v));
        case Left => position := Sub(position, Scale(right, v));
        case Up => position := Add(position, Scale(WorldUp, v));
        case Down => position := Sub(position, Scale(WorldUp, v));
      }
    }

    /** Turns by the offsets scaled by the sensitivity, clamps the pitch and
        recomputes the basis. The position does not change. */
    method Look(xoffset: real, yoffset: real)
      modifies this`yaw, this`pitch, this`front, this`right, this`up
      ensures Valid()
      ensures CurrentAngles() == Looked(old(CurrentAngles()), sensitivity, xoffset, yoffset)
      ensures -PitchLimit <= pitch <= PitchLimit
    {
      var dx := xoffset * sensitivity;
      var dy := yoffset * sensitivity;
      yaw := yaw + dx;
      pitch := pitch + dy;
      pitch := ClampPitch(pitch);
      UpdateVectors();
    }
  }

  // ---------------------------------------------------------------------------
  // Properties of look

  /** Looking with no offsets from a pitch within the limit changes nothing,
      so clamping an already clamped pitch is the identity. */
  lemma LookAtRestIsIdentity(a: Angles, sensitivity: real)
    requires -PitchLimit <= a.pitch <= PitchLimit
    ensures Looked(a, sensitivity, 0.0, 0.0) == a
  {
  }

  lemma ClampPitchIdempotent(pitch: real)
    ensures ClampPitch(ClampPitch(pitch)) == ClampPitch(pitch)
  {
  }

  /** The angles after a series of look calls. */
  function LookedAll(a: Angles, sensitivity: real, offsets: seq<(real, real)>): Angles
    decreases |offsets|
  {
    if offsets == [] then a
    else LookedAll(Looked(a, sensitivity, offsets[0].0, offsets[0].1), sensitivity, offsets[1..])
  }

  /** After any non-empty series of look calls the pitch is within the
      limit, whatever the offsets and whatever the pitch the camera was made
      with; the yaw has moved by the sum of the scaled horizontal offsets. */
  lemma {:induction false} LookedAllBounded(a: Angles, sensitivity: real, offsets: seq<(real, real)>)
    requires offsets != [] || -PitchLimit <= a.pitch <= PitchLimit
    ensures -PitchLimit <= LookedAll(a, sensitivity, offsets).pitch <= PitchLimit
    ensures LookedAll(a, sensitivity, offsets).yaw == a.yaw + sensitivity * SumX(offsets)
    decreases |offsets|
  {
    if offsets != [] {
      var b := Looked(a, sensitivity, offsets[0].0, offsets[0].1);
      LookedAllBounded(b, sensitivity, offsets[1..]);
      assert SumX(offsets) == offsets[0].0 + SumX(offsets[1..]);
    }
  }

  function SumX(offsets: seq<(real, real)>): real
    decreases |offsets|
  {
    if offsets == [] then 0.0 else offsets[0].0 + SumX(offsets[1..])
  }

  /** Pushing the pitch upward without end reaches the upper limit and stays
      there: repeated extreme offsets converge to the limit, never past it. */
  lemma {:induction false} PitchSaturates(a: Angles, sensitivity: real, offsets: seq<(real, real)>)
    requires a.pitch == PitchLimit
    requires forall i :: 0 <= i < |offsets| ==> sensitivity * offsets[i].1 >= 0.0
    ensures LookedAll(a, sensitivity, offsets).pitch == PitchLimit
    decreases |offsets|
  {
    if offsets != [] {
      var b := Looked(a, sensitivity, offsets[0].0, offsets[0].1);
      assert b.pitch == PitchLimit;
      PitchSaturates(b, sensitivity, offsets[1..]);
    }
  }

  // ---------------------------------------------------------------------------
  // Properties of move

  /** Moving up or down changes only the height, by moveSpeed * dt. */
  lemma VerticalMoveChangesOnlyHeight(p: Vec3, b: Basis, speed: real, dir: MoveDirection, dt: real)
    requires dir == Up || dir == Down
    ensures Moved(p, b, speed, dir, dt).x == p.x && Moved(p, b, speed, dir, dt).z == p.z
    ensures Moved(p, b, speed, dir, dt).y == if dir == Up then p.y + speed * dt else p.y - speed * dt
  {
  }

  /** A move is undone by the opposite move over the same time, with the
      basis unchanged (move does not change it). */
  lemma MoveUndone(p: Vec3, b: Basis, speed: real, dir: MoveDirection, dt: real)
    ensures Moved(Moved(p, b, speed, dir, dt), b, speed, Opposite(dir), dt) == p
  {
  }
}
