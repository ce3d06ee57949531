/** The validation chain of loadDataFrame (src/app.cpp).

    Decoding the images and reading the pose file are done by libraries; what
    they report is an input here. The chain checks, in a fixed order, that the
    depth image was read, has the dataset's frame size and one channel, that
    the color image was read, has the frame size and three channels, and that
    the pose file opens. The first check that fails decides the outcome. */
module FrameLoading {
  import opened FrameNames

  /** Frame size of the dataset (DATASET_FRAME_SIZE). */
  const FrameWidth: int := 640
  const FrameHeight: int := 480

  /** What an image reader reports: no data, or the decoded image's
      width, height and channel count. */
  datatype ImageRead = Unreadable | Decoded(width: int, height: int, channels: int)

  /** What the readers report for the three files of one frame. */
  datatype FrameFiles = FrameFiles(depth: ImageRead, color: ImageRead, poseOpens: bool)

  /** The checks, named after what each one demands. */
  datatype Check =
    | DepthReadable | DepthSize | DepthChannels
    | ColorReadable | ColorSize | ColorChannels
    | PoseReadable

  datatype LoadStatus = Loaded | Skipped(failed: Check)

  /** The order in which loadDataFrame applies the checks. */
  const CheckOrder: seq<Check> :=
    [DepthReadable, DepthSize, DepthChannels, ColorReadable, ColorSize, ColorChannels, PoseReadable]

  predicate HasFrameSize(img: ImageRead)
    requires img.Decoded?
  {
    img.width == FrameWidth && img.height == FrameHeight
  }

  /** The outcome of loadDataFrame, as its chain of early returns computes
      it: a skipped frame fails the check it is skipped for, and a loaded
      frame passes every check. */
  function Validate(f: FrameFiles): (r: LoadStatus)
    ensures r.Skipped? ==> !Passes(f, r.failed)
    ensures r == Loaded ==> forall c: Check :: Passes(f, c)
  {
    match f.depth
    case Unreadable => Skipped(DepthReadable)
    case Decoded(_, _, dc) =>
      if !HasFrameSize(f.depth) then Skipped(DepthSize)
      else if dc != 1 then Skipped(DepthChannels)
      else match f.color
        case Unreadable => Skipped(ColorReadable)
        case Decoded(_, _, cc) =>
          if !HasFrameSize(f.color) then Skipped(ColorSize)
          else if cc != 3 then Skipped(ColorChannels)
          else if !f.poseOpens then Skipped(PoseReadable)
          else Loaded
  }

  // ---------------------------------------------------------------------------
  // A reference definition: each check on its own, and the first that fails

  /** Whether the files meet one check's demand, independently of the others. */
  predicate Passes(f: FrameFiles, c: Check)
  {
    match c
    case DepthReadable => f.depth.Decoded?
    case DepthSize => f.depth.Decoded? && HasFrameSize(f.depth)
    case DepthChannels => f.depth.Decoded? && f.depth.channels == 1
    case ColorReadable => f.color.Decoded?
    case ColorSize => f.color.Decoded? && HasFrameSize(f.color)
    case ColorChannels => f.color.Decoded? && f.color.channels == 3
    case PoseReadable => f.poseOpens
  }

  /** The first check of `checks` that the files fail, if any. */
  function FirstFailure(f: FrameFiles, checks: seq<Check>): (r: LoadStatus)
    ensures r.Skipped? ==> r.failed in checks && !Passes(f, r.failed)
    ensures r == Loaded <==> forall i :: 0 <= i < |checks| ==> Passes(f, checks[i])
  {
    if checks == [] then Loaded
    else if !Passes(f, checks[0]) then Skipped(checks[0])
    else FirstFailure(f, checks[1..])
  }

  /** The chain of early returns computes exactly the first failing check. */
  lemma ValidateIsFirstFailure(f: FrameFiles)
    ensures Validate(f) == FirstFailure(f, CheckOrder)
  {
    var c6 := [PoseReadable];
    var c5 := [ColorChannels] + c6;
    var c4 := [ColorSize] + c5;
    var c3 := [ColorReadable] + c4;
    var c2 := [DepthChannels] + c3;
    var c1 := [DepthSize] + c2;
    assert CheckOrder == [DepthReadable] + c1;
    assert FirstFailure(f, c6) == if Passes(f, PoseReadable) then Loaded else Skipped(PoseReadable) by {
      assert c6[1..] == [];
    }
    assert FirstFailure(f, c5) == if Passes(f, ColorChannels) then FirstFailure(f, c6) else Skipped(ColorChannels) by {
      assert c5[1..] == c6;
    }
    assert FirstFailure(f, c4) == if Passes(f, ColorSize) then FirstFailure(f, c5) else Skipped(ColorSize) by {
      assert c4[1..] == c5;
    }
    assert FirstFailure(f, c3) == if Passes(f, ColorReadable) then FirstFailure(f, c4) else Skipped(ColorReadable) by {
      assert c3[1..] == c4;
    }
    assert FirstFailure(f, c2) == if Passes(f, DepthChannels) then FirstFailure(f, c3) else Skipped(DepthChannels) by {
      assert c2[1..] == c3;
    }
    assert FirstFailure(f, c1) == if Passes(f, DepthSize) then FirstFailure(f, c2) else Skipped(DepthSize) by {
      assert c1[1..] == c2;
    }
    assert FirstFailure(f, CheckOrder) == if Passes(f, DepthReadable) then FirstFailure(f, c1) else Skipped(DepthReadable) by {
      assert CheckOrder[1..] == c1;
    }
  }

  /** A frame loads if and only if it passes every check. */
  lemma LoadedIffAllPass(f: FrameFiles)
    ensures Validate(f) == Loaded <==> forall c: Check :: Passes(f, c)
  {
    ValidateIsFirstFailure(f);
    if forall i :: 0 <= i < |CheckOrder| ==> Passes(f, CheckOrder[i]) {
      forall c: Check ensures Passes(f, c) {
        assert c == CheckOrder[IndexOf(c)];
      }
    }
  }

  function IndexOf(c: Check): (i: nat)
    ensures i < |CheckOrder| && CheckOrder[i] == c
  {
    match c
    case DepthReadable => 0
    case DepthSize => 1
    case DepthChannels => 2
    case ColorReadable => 3
    case ColorSize => 4
    case ColorChannels => 5
    case PoseReadable => 6
  }

  /** A frame is skipped for check k exactly when it fails check k and passes
      every earlier one. */
  lemma SkippedIffFirstFailing(f: FrameFiles, k: nat)
    requires k < |CheckOrder|
    ensures Validate(f) == Skipped(CheckOrder[k])
        <==> !Passes(f, CheckOrder[k]) && forall j :: 0 <= j < k ==> Passes(f, CheckOrder[j])
  {
    ValidateIsFirstFailure(f);
    FirstFailureAt(f, CheckOrder, k);
  }

  lemma {:induction false} FirstFailureAt(f: FrameFiles, checks: seq<Check>, k: nat)
    requires k < |checks|
    requires forall i, j :: 0 <= i < j < |checks| ==> checks[i] != checks[j]
    ensures FirstFailure(f, checks) == Skipped(checks[k])
        <==> !Passes(f, checks[k]) && forall j :: 0 <= j < k ==> Passes(f, checks[j])
  {
    if k > 0 && Passes(f, checks[0]) {
      FirstFailureAt(f, checks[1..], k - 1);
      assert forall j :: 0 < j <= k ==> checks[1..][j - 1] == checks[j];
    }
  }

  /** How many of the frame's files loadDataFrame reaches: the color image
      is opened once the three depth checks pass, the pose file once the
      three color checks pass too. */
  function FilesReached(status: LoadStatus): nat
  {
    match status
    case Loaded => 3
    case Skipped(c) => if IndexOf(c) < 3 then 1 else if IndexOf(c) < 6 then 2 else 3
  }

  /** The files loadDataFrame tries to open, in order: the depth image always,
      the color image once the depth checks pass, the pose file once the color
      checks pass. */
  function OpenedFiles(dir: string, n: int, status: LoadStatus): (names: seq<string>)
    ensures |names| == FilesReached(status)
    ensures names[0] == DepthFilename(dir, n)
    ensures |names| >= 2 ==> names[1] == ColorFilename(dir, n)
    ensures |names| == 3 ==> names[2] == PoseFilename(dir, n)
  {
    match status
    case Skipped(DepthReadable) | Skipped(DepthSize) | Skipped(DepthChannels) =>
      [DepthFilename(dir, n)]
    case Skipped(ColorReadable) | Skipped(ColorSize) | Skipped(ColorChannels) =>
      [DepthFilename(dir, n), ColorFilename(dir, n)]
    case _ =>
      [DepthFilename(dir, n), ColorFilename(dir, n), PoseFilename(dir, n)]
  }

  /** The load gets past the first k checks (it loads, or fails a later
      one) exactly when the files pass those k checks. */
  lemma ValidatePast(f: FrameFiles, k: nat)
    requires k <= |CheckOrder|
    ensures (Validate(f) == Loaded || IndexOf(Validate(f).failed) >= k)
        <==> forall i :: 0 <= i < k ==> Passes(f, CheckOrder[i])
  {
    var r := Validate(f);
    if r.Skipped? {
      SkippedIffFirstFailing(f, IndexOf(r.failed));
    }
  }

  /** The pose file is opened exactly when both images pass their checks. */
  lemma PoseOpenedIffImagesValid(dir: string, n: int, f: FrameFiles)
    ensures |OpenedFiles(dir, n, Validate(f))| == 3
        <==> forall i :: 0 <= i < 6 ==> Passes(f, CheckOrder[i])
  {
    ValidatePast(f, 6);
  }

  /** The color image is opened exactly when the depth image passes its checks. */
  lemma ColorOpenedIffDepthValid(dir: string, n: int, f: FrameFiles)
    ensures |OpenedFiles(dir, n, Validate(f))| >= 2
        <==> forall i :: 0 <= i < 3 ==> Passes(f, CheckOrder[i])
  {
    ValidatePast(f, 3);
  }
}
