/** The application (src/app.cpp, src/app.hpp): the dataset directory, the
    playback fields, the intrinsic parameters, the camera and the volume, and
    what one iteration of the main loop and each control of the integration
    window do to them.

    The file system is a parameter: a Disk says, for every file name, what
    the image readers decode from it and whether the pose file opens. */
module Application {
  import opened Vectors
  import opened Options
  import opened FrameNames
  import opened FrameLoading
  import Playback
  import opened Intrinsics
  import opened Cameras
  import opened Volumes

  /** The volume the main loop creates: 512 voxels per side, 0.02 units per
      voxel, no offset, frames of the dataset's size. */
  const VolumeDims: Dims := Dims(512, 512, 512)
  const VolumeResolution: real := 0.02

  /** What the readers report for each file name: the 16-bit and the 8-bit
      image reader, and whether a text file opens. */
  datatype Disk = Disk(image16: string -> ImageRead, image8: string -> ImageRead, opens: string -> bool)

  /** What the readers report for the three files of frame n. */
  function FilesOf(disk: Disk, dir: string, n: int): FrameFiles
  {
    FrameFiles(disk.image16(DepthFilename(dir, n)), disk.image8(ColorFilename(dir, n)), disk.opens(PoseFilename(dir, n)))
  }

  class App {
    const datasetDir: string
    const camera: Camera
    const volume: Volume

    var paused: bool
    var totalFrames: int
    var currentFrame: int

    var fx: real
    var fy: real
    var cx: real
    var cy: real
    var s: real
    /** The "tie" checkbox of the intrinsics panel; on at start. */
    var tieFocalLength: bool

    /** The frame index is within the dataset, and the camera and the volume
        keep their own invariants. */
    ghost predicate Valid()
      reads this, camera, volume
    {
      && Playback.InBounds(State())
      && camera.Valid()
      && volume.Valid()
      && volume.dims == VolumeDims && volume.resolution == VolumeResolution
    }

    /** The playback fields as one value. */
    function State(): Playback.PlaybackState
      reads this
    {
      Playback.PlaybackState(paused, currentFrame, totalFrames)
    }

    function Focal(): FocalLengths
      reads this
    {
      FocalLengths(fx, fy)
    }

    /** The number shown as "Frame k of total". */
    function DisplayedFrame(): (shown: int)
      reads this
      ensures Playback.InBounds(State()) && totalFrames >= 1 ==> 1 <= shown <= totalFrames
    {
      Playback.DisplayedFrame(State())
    }

    /** The application after start-up: paused at frame 0 of 1000, the
        default intrinsics, the default camera and a cleared volume. */
    constructor (datasetDir: string, orientation: Orientation)
      ensures Valid()
      ensures this.datasetDir == datasetDir
      ensures State() == Playback.Initial
      ensures fx == DefaultFx && fy == DefaultFy && cx == DefaultCx && cy == DefaultCy && s == DefaultSkew
      ensures tieFocalLength
      ensures volume.Cleared()
      ensures camera.position == Vec3(0.0, 0.0, 2.0) && camera.yaw == -90.0 && camera.pitch == 0.0
      ensures camera.moveSpeed == CameraSpeed && camera.sensitivity == CameraSensitivity && camera.fov == CameraFov
      ensures volume.stepSize == DefaultStepSize && volume.truncMargin == DefaultTruncMargin && volume.displayMode == DefaultDisplayMode
      ensures fresh(camera) && fresh(volume) && fresh(volume.tsdf) && fresh(volume.color) && fresh(volume.weight)
    {
      this.datasetDir := datasetDir;
      paused := true;
      totalFrames := Playback.DefaultTotalFrames;
      currentFrame := 0;
      fx := 585.0;
      fy := 585.0;
      cx := FrameWidth as real / 2.0;
      cy := FrameHeight as real / 2.0;
      s := 0.0;
      tieFocalLength := true;
      camera := new Camera(orientation);
      volume := new Volume(VolumeDims, VolumeResolution, Splat(0.0), FrameWidth, FrameHeight);
    }

    /** The load of frame n: the checks in order, each failure returning
        false, a color image with the wrong channel count also moving to
        the next frame. Also returns the names of the files it tried to open. */
    method LoadDataFrame(n: int, disk: Disk) returns (received: bool, tried: seq<string>)
      modifies this`currentFrame
      ensures received <==> Validate(FilesOf(disk, datasetDir, n)) == Loaded
      ensures currentFrame == old(currentFrame) + if Validate(FilesOf(disk, datasetDir, n)) == Skipped(ColorChannels) then 1 else 0
      ensures tried == OpenedFiles(datasetDir, n, Validate(FilesOf(disk, datasetDir, n)))
    {
      var baseFilename := datasetDir + StemPrefix;
      var frameNumber := Snprintf(Printf06d(n), BufferSize);
      baseFilename := baseFilename + frameNumber;
      assert baseFilename == BaseFilename(datasetDir, n);

      var depthFilename := baseFilename + DepthSuffix;
      tried := [depthFilename];
      var depth := disk.image16(depthFilename);
      if depth == Unreadable {
        return false, tried;
      }
      if depth.width != FrameWidth || depth.height != FrameHeight {
        return false, tried;
      }
      if depth.channels != 1 {
        return false, tried;
      }

      var colorFilename := baseFilename + ColorSuffix;
      tried := tried + [colorFilename];
      var color := disk.image8(colorFilename);
      if color == Unreadable {
        return false, tried;
      }
      if color.width != FrameWidth || color.height != FrameHeight {
        return false, tried;
      }
      if color.channels != 3 {
        currentFrame := currentFrame + 1;
        return false, tried;
      }

      var poseFilename := baseFilename + PoseSuffix;
      tried := tried + [poseFilename];
      if !disk.opens(poseFilename) {
        return false, tried;
      }
      return true, tried;
    }

    /** The fusion half of one iteration of the main loop: while playing and
        frames remain, load the current frame and, if it loaded, integrate it
        with the intrinsics of this iteration and move to the next frame.
        Returns the fusion dispatch, if there was one; without one, the three
        fields are as they were. */
    method Fuse(disk: Disk) returns (dispatch: Option<Dispatch>)
      requires Valid()
      modifies this`currentFrame, volume.tsdf, volume.color, volume.weight
      ensures Valid()
      ensures State() == Playback.Iterate(old(State()), Validate(FilesOf(disk, datasetDir, old(currentFrame))))
      ensures dispatch.Some? <==> Playback.Attempts(old(State())) && Validate(FilesOf(disk, datasetDir, old(currentFrame))) == Loaded
      ensures dispatch.Some? ==> dispatch.value.intrinsic == IntrinsicMatrix(fx, fy, cx, cy, s)
      ensures dispatch.Some? ==> dispatch.value.truncMargin == VolumeResolution * DefaultTruncMargin
      ensures dispatch.None? ==> unchanged(volume.tsdf) && unchanged(volume.color) && unchanged(volume.weight)
    {
      ghost var status := Validate(FilesOf(disk, datasetDir, currentFrame));
      ghost var before := State();
      dispatch := None;
      if !paused {
        if currentFrame < totalFrames {
          var intrinsic := IntrinsicMatrix(fx, fy, cx, cy, s);
          var received, _ := LoadDataFrame(currentFrame, disk);
          if received {
            var d := volume.Integrate(intrinsic);
            dispatch := Some(d);
            currentFrame := currentFrame + 1;
          }
        }
      }
      assert State() == Playback.Iterate(before, status);
    }

    /** One iteration of the main loop, after input and controls: fusion,
        then the draw. Returns the fusion dispatch, if there was one, and the
        draw call. */
    method Step(disk: Disk) returns (dispatch: Option<Dispatch>, draw: DrawCall)
      requires Valid()
      modifies this`currentFrame, volume.tsdf, volume.color, volume.weight
      ensures Valid()
      ensures State() == Playback.Iterate(old(State()), Validate(FilesOf(disk, datasetDir, old(currentFrame))))
      ensures dispatch.Some? <==> Playback.Attempts(old(State())) && Validate(FilesOf(disk, datasetDir, old(currentFrame))) == Loaded
      ensures dispatch.Some? ==> dispatch.value.intrinsic == IntrinsicMatrix(fx, fy, cx, cy, s)
      ensures dispatch.Some? ==> dispatch.value.truncMargin == VolumeResolution * DefaultTruncMargin
      ensures dispatch.None? ==> unchanged(volume.tsdf) && unchanged(volume.color) && unchanged(volume.weight)
      ensures draw.cameraPosTexSpace == Add(Div(camera.position, Extent(volume.dims, volume.resolution)), Splat(0.5))
      ensures draw.stepSize == volume.stepSize && draw.displayMode == volume.displayMode
    {
      dispatch := Fuse(disk);
      draw := volume.Draw(camera.position);
    }

    method Play()
      modifies this`paused
      ensures State() == Playback.Apply(old(State()), Playback.Play)
    {
      paused := false;
    }

    method Stop()
      modifies this`paused
      ensures State() == Playback.Apply(old(State()), Playback.Stop)
    {
      paused := true;
    }

    method ReturnToFirstFrame()
      modifies this`currentFrame
      ensures State() == Playback.Apply(old(State()), Playback.ReturnToFirstFrame)
    {
      currentFrame := 0;
    }

    /** Clears the volume; the playback state does not change, so fusion
        goes on from the current frame into the empty volume. */
    method ResetVolume()
      requires Valid()
      modifies volume.tsdf, volume.color, volume.weight
      ensures Valid() && volume.Cleared()
      ensures State() == Playback.Apply(old(State()), Playback.ResetVolume)
    {
      volume.Reset();
    }

    /** One pass of the intrinsics panel: the fx slider, the tie checkbox,
        the fy slider, the other three sliders. */
    method EditIntrinsics(fxInput: SliderInput, tie: bool, fyInput: SliderInput,
                          cxInput: SliderInput, cyInput: SliderInput, sInput: SliderInput)
      modifies this`fx, this`fy, this`cx, this`cy, this`s, this`tieFocalLength
      ensures tieFocalLength == tie
      ensures Focal() == EditFocalLengths(old(Focal()), tie, fxInput, fyInput)
      ensures cx == Slid(old(cx), cxInput) && cy == Slid(old(cy), cyInput) && s == Slid(old(s), sInput)
    {
      fx := Slid(fx, fxInput);
      tieFocalLength := tie;
      if tieFocalLength {
        fy := fx;
      }
      fy := Slid(fy, fyInput);
      if tieFocalLength {
        fx := fy;
      }
      cx := Slid(cx, cxInput);
      cy := Slid(cy, cyInput);
      s := Slid(s, sInput);
    }
  }

  /** The application reads, for each frame, exactly the three files named
      after it in the dataset directory: which outcome the load has depends
      on nothing else on the disk. */
  lemma LoadDependsOnlyOnFrameFiles(disk: Disk, disk': Disk, dir: string, n: int)
    requires disk.image16(DepthFilename(dir, n)) == disk'.image16(DepthFilename(dir, n))
    requires disk.image8(ColorFilename(dir, n)) == disk'.image8(ColorFilename(dir, n))
    requires disk.opens(PoseFilename(dir, n)) == disk'.opens(PoseFilename(dir, n))
    ensures Validate(FilesOf(disk, dir, n)) == Validate(FilesOf(disk', dir, n))
  {
  }
}
