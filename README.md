# A model of the sfm fusion viewer's control core

sfm fuses a sequence of RGB-D frames (a 16-bit depth image, an 8-bit color
image and a camera pose per frame) into a voxel volume holding a truncated
signed distance, a color and a fusion weight per voxel, and ray-marches that
volume from a free-flying first-person camera. The fusion and ray-march
kernels run on the GPU, and their shader sources are not part of this model.
This project models the sequential C++ that drives them:

- **Playback** (`playback.dfy`, `app.dfy`). The application is paused or
  playing, and keeps the index of the next frame and a fixed frame count of
  1000, which is never read from the dataset. One main-loop iteration loads the current frame and, if the load
  succeeded, integrates it and moves to the next frame. The controls Play,
  Stop, Return to first frame and Reset volume change this state.
  `Playback.Iterate` is the pure transition. `Application.App.Step` is the
  imperative loop body, fusion (`Application.App.Fuse`) then the draw, and
  is proved against it.
- **Frame loading** (`frame_loading.dfy`, `frame_names.dfy`).
  `loadDataFrame` builds the three file names of a frame, using `snprintf`
  of `"%06d"` into a 7-byte buffer. It then runs seven checks in a fixed
  order. The image readers and the pose file are a parameter, `Disk`, and
  what they report is abstract. The chain of early returns (`Validate`) is
  proved equal to an independent "first failing check" definition.
- **Intrinsics** (`intrinsics.dfy`). The 3x3 intrinsic matrix the loop fills
  entry by entry is proved to perform the textbook pinhole projection with
  skew. The focal-length "tie" of the intrinsics panel is modelled and its
  properties proved.
- **Camera** (`camera.dfy`). The camera is a class. `Move` changes only the
  position. `Look` turns by the scaled offsets and clamps the pitch to
  [-89.9, 89.9]. `updateVectors` uses trigonometry, so it is an
  `Orientation` function given to the camera when it is made; nothing is
  assumed about that function.
- **Volume** (`volume.dfy`, `vectors.dfy`).
  - Three flat arrays over one grid hold the distance, color and weight
    fields. `Reset` fills them in place, and the constructor ends by calling
    it.
  - The texture-to-model matrix and its inverse are represented by the
    diagonal affine maps they denote.
  - The bounding-box vertex and index tables are modelled, and the box's
    triangle strip is proved to cover all six faces.
  - The setters and getters of step size, truncation margin and display
    mode are modelled.
  - `Integrate` and `Draw` return the configuration they hand to the GPU
    kernels.

Reals stand in for single-precision floats everywhere. Integer fields are
unbounded, which matters nowhere here: the frame index stays between 0 and
the frame count.

### How failed loads and reset behave

- **A failed check retries the frame.** Every failed check but one returns
  without touching the frame index, so the next iteration tries the same
  frame again (src/app.cpp:331-366, src/app.cpp:375-380;
  `Playback.FailureRetriesSameFrame`, `Playback.RetriesStall`). The
  exception is a color image whose channel count is not 3. That failure
  moves the index on although nothing was integrated (src/app.cpp:367-373;
  `Playback.ColorChannelFailureAdvances`). Every failure message says
  "Skipping frame...", so the retry is recorded under "## Findings".
- **Reset clears the distance to 0.** `reset` clears the distance texture
  with no data, which fills it with 0 (src/volume.cpp:201;
  `Volumes.ClearDistance`).

### Other behaviour worth knowing

- The frame number is cut to six characters by the buffer. From frame
  1000000 on, names collide: frames 1000000 and 1000001 both use the stem of
  frame 100000 (`FrameNames.FrameNumbersCollideAboveWidth`).
- The truncation margin handed to the fusion kernel is computed once, in the
  constructor, from the default. `SetTruncMargin` changes what
  `getTruncMargin` returns but never reaches `Integrate`.
- `SetDisplayMode` stores any int, with no check against the three modes.
- The work-group counts are `dims / 32`, rounded down. In the source the
  division is on floats, truncated to an unsigned int when it is passed on.
  For the non-negative sizes here, that is the same as division on naturals.

## Model

| member | source | states |
|---|---|---|
| Vectors.ScaleBy | src/volume.cpp:21-23 | `scale(m, s)` gives the map that applies the scaling to a point first and then m |
| Vectors.TranslateBy | src/volume.cpp:24-26 | `translate(m, v)` gives the map that applies the translation to a point first and then m |
| Vectors.Inverse | src/volume.cpp:178-182 | the inverse of an invertible scale-and-translate map undoes it from both sides and is itself invertible |
| Vectors.SetEntry | src/app.cpp:92-98 | the assignment `m[c][r] = value` sets that entry and leaves the other eight as they were |
| FrameNames.Snprintf | src/app.cpp:322-323 | `snprintf` stores at most size-1 characters, always a prefix of the text: all of it when it fits, and exactly its first size-1 characters when it does not |
| FrameNames.ZeroPad | src/app.cpp:323 | the "0" flag pads with zeros on the left up to the width, keeps digits longer than the width whole, and ends with the digits |
| FrameNames.Printf06d | src/app.cpp:323 | `"%06d"` writes at least six characters, starting with '-' exactly for negative n, and digits only otherwise |
| FrameNames.PrintedValue | src/app.cpp:323 | reading the `"%06d"` text back gives n, after the minus sign when n is negative |
| FrameNames.FrameNumber | src/app.cpp:322-324 | the frame number in a file name is always six characters long and starts with '-' exactly when n is negative |
| FrameNames.FrameNumberDigits | src/app.cpp:321-324 | for 0 <= n < 10^6 the frame number is six decimal digits whose value is n, so it is zero-padded n |
| FrameNames.FrameNumberInjective | src/app.cpp:321-324 | distinct frames below 10^6 get distinct frame numbers |
| FrameNames.FrameNumberTruncatesAboveWidth | src/app.cpp:322-323 | from 10^6 on, the frame number is the first six digits of n |
| FrameNames.FrameNumbersCollideAboveWidth | src/app.cpp:322-323 | frames 1000000, 1000001 and 100000 all get the number "100000" |
| FrameNames.BaseFilename | src/app.cpp:321-324 | the stem is the dataset directory, then "/frame-", then the six-character frame number |
| FrameNames.DepthFilename | src/app.cpp:328 | the depth file name is the stem followed by ".depth.png" |
| FrameNames.ColorFilename | src/app.cpp:351 | the color file name is the stem followed by ".color.png" |
| FrameNames.PoseFilename | src/app.cpp:375 | the pose file name is the stem followed by ".pose.txt" |
| FrameNames.FilenamesInjective | src/app.cpp:321-328 | in one directory, two frames below 10^6 that share a depth, color or pose file name are the same frame |
| FrameNames.FileKindsDistinct | src/app.cpp:328-375 | a depth, a color and a pose file never share a name, whatever their frames |
| FrameLoading.Validate | src/app.cpp:331-381 | a skipped frame fails the check it is skipped for, and a loaded frame passes every check |
| FrameLoading.FirstFailure | src/app.cpp:331-381 | the first failing check of a list of checks: Loaded exactly when every check passes, and otherwise a check of the list that fails |
| FrameLoading.ValidateIsFirstFailure | src/app.cpp:331-381 | the chain of early returns gives exactly the first failing check, in the order depth read, depth size, depth channels, color read, color size, color channels, pose file |
| FrameLoading.LoadedIffAllPass | src/app.cpp:331-390 | a frame loads if and only if it passes every one of the seven checks |
| FrameLoading.SkippedIffFirstFailing | src/app.cpp:331-381 | a frame fails on check k if and only if it fails check k and passes every earlier check |
| FrameLoading.OpenedFiles | src/app.cpp:328-376 | the files a load tries to open, in order: the depth file always, the color file after the depth checks, the pose file after the color checks; their number is fixed by where the first failing check stands in the order |
| FrameLoading.ValidatePast | src/app.cpp:331-381 | the load gets past the first k checks exactly when the files pass those k checks |
| FrameLoading.ColorOpenedIffDepthValid | src/app.cpp:331-352 | the color file is opened if and only if the depth image passes all three depth checks |
| FrameLoading.PoseOpenedIffImagesValid | src/app.cpp:375-377 | the pose file is opened if and only if both images pass all six image checks |
| Playback.Iterate | src/app.cpp:87-109 | one iteration keeps paused and the frame count, keeps the index in bounds and raises it by at most one, and changes it exactly when playing with frames left and the load either succeeded or failed on the color channel count |
| Playback.Apply | src/app.cpp:290-311 | no control changes the frame count, and every control keeps the index in bounds |
| Playback.DisplayedFrame | src/app.cpp:302-303 | the shown frame is index+1 while frames remain and the frame count once the index reaches it; it is never above the frame count, and at least 1 for a non-empty dataset |
| Playback.IdleIterationChangesNothing | src/app.cpp:87-88 | while paused, or once the index reaches the frame count, an iteration changes nothing, whatever the files hold |
| Playback.LoadedAdvancesByOne | src/app.cpp:104-109 | an attempted load that succeeds raises the index by exactly one and changes nothing else |
| Playback.FailureRetriesSameFrame | src/app.cpp:331-366 | every failed check except the color channel count leaves the state unchanged, so the same frame is retried |
| Playback.ColorChannelFailureAdvances | src/app.cpp:367-373 | a color image with the wrong channel count moves the index on by one, although nothing was integrated |
| Playback.RunStaysInBounds | src/app.hpp:29-31 | from any in-bounds state, any sequence of iterations and controls keeps 0 <= index <= frame count and keeps the frame count |
| Playback.InitialInBounds | src/app.hpp:29-31 | the initial state is paused, in bounds, and shows frame 1 |
| Playback.RetriesStall | src/app.cpp:331-381 | any number of iterations whose loads fail on a retrying check leaves the state as it was: playback stalls on that frame |
| Playback.PlayingThrough | src/app.cpp:87-109 | while playing, k successful loads move the index k frames on, stopping at the frame count |
| Playback.PausedRunIsIdle | src/app.cpp:87-88 | while paused, any run of iterations leaves the state unchanged |
| Playback.ReturnRestarts | src/app.cpp:308-309 | after Play and Return to first frame, the next iteration attempts frame 0 |
| Playback.ShortDatasetStalls | src/app.cpp:331-381 | with the fixed frame count, a dataset whose frame n has no depth file keeps attempting frame n forever |
| Playback.IterateSkipping | src/app.cpp:331-381 | the skipping iteration moves to the next frame on every attempted load, whatever it reports, and agrees with `Playback.Iterate` wherever that one moves on |
| Playback.SkippingReachesEnd | src/app.cpp:87-109 | with failed frames skipped, total - current iterations from an in-bounds playing state reach the frame count, whatever the loads report |
| Intrinsics.IntrinsicMatrix | src/app.cpp:92-98 | the matrix filled entry by entry has the columns (fx, 0, 0), (s, fy, 0) and (cx, cy, 1): no entry is left over from the zero matrix or overwritten |
| Intrinsics.IntrinsicMatrixProjects | src/app.cpp:92-98 | the matrix as filled entry by entry keeps the depth, and after division by it performs the pinhole projection (fx*x/z + s*y/z + cx, fy*y/z + cy) |
| Intrinsics.OpticalAxisHitsPrincipalPoint | src/app.cpp:92-98 | a point on the optical axis projects onto the principal point (cx, cy) |
| Intrinsics.EditFocalLengths | src/app.cpp:266-274 | with the tie on, the two focal lengths come out equal: the fy edit if there was one, else the fx edit, else the old fx; with the tie off, each slider sets its own length |
| Intrinsics.TieCopiesFx | src/app.cpp:270-271 | with the tie on and no edit, fy takes the value of fx |
| Intrinsics.FyEditWinsWhenTied | src/app.cpp:267-274 | with the tie on, moving both sliders in one pass leaves the fy value in both lengths, because fy is read after fx |
| Cameras.ClampPitch | src/camera.cpp:50 | the clamped pitch is within [-89.9, 89.9], is the pitch itself when that is in range, and is the nearer bound otherwise |
| Cameras.Camera.constructor | src/camera.cpp:12-18 | the default camera is at (0,0,2) with yaw -90 and pitch 0, has the default speed, sensitivity and field of view, and has the basis of its angles |
| Cameras.Camera.At | src/camera.cpp:20-26 | the camera takes the given position, yaw and pitch, with the pitch unclamped, and has the basis of its angles |
| Cameras.Camera.UpdateVectors | src/camera.cpp:70-78 | front, right and up become the basis of the current yaw and pitch |
| Cameras.Camera.Move | src/camera.cpp:28-40 | the position is moved by moveSpeed*dt along front, right or the world's up axis, in the sign of the direction; nothing else changes |
| Cameras.Camera.Look | src/camera.cpp:42-52 | yaw and pitch change by the scaled offsets, the pitch is clamped into the limit, the basis follows the new angles, and the position does not change |
| Cameras.Looked | src/camera.cpp:45-50 | look adds sensitivity*xoffset to the yaw unclamped, and sets the pitch to pitch+sensitivity*yoffset when that is in range and to the nearer bound otherwise |
| Cameras.LookAtRestIsIdentity | src/camera.cpp:45-50 | look(0, 0) from an in-range pitch changes neither angle |
| Cameras.ClampPitchIdempotent | src/camera.cpp:50 | clamping a clamped pitch changes nothing |
| Cameras.LookedAllBounded | src/camera.cpp:42-52 | after any non-empty series of looks the pitch is within the limit, whatever the starting pitch; the yaw has moved by the sensitivity times the sum of the x offsets |
| Cameras.PitchSaturates | src/camera.cpp:48-50 | from the upper limit, any series of upward looks leaves the pitch at the limit |
| Cameras.VerticalMoveChangesOnlyHeight | src/camera.cpp:37-38 | moving up or down changes only y, by plus or minus moveSpeed*dt |
| Cameras.MoveUndone | src/camera.cpp:28-40 | a move followed by the opposite move over the same time returns to the starting position |
| Cameras.Moved | src/camera.cpp:28-40 | each direction moves along front, right or world up, by plus or minus moveSpeed*dt |
| Volumes.VoxelIndex | src/volume.cpp:46-53 | every voxel of the grid has an index within the fields' common length |
| Volumes.VoxelIndexInjective | src/volume.cpp:46-87 | two voxels with the same index are the same voxel, so index i names one voxel in all three fields |
| Volumes.VoxelIndexOnto | src/volume.cpp:46-87 | every index of the fields belongs to some voxel of the grid |
| Volumes.TextureToModel | src/volume.cpp:21-26 | scaling by the extent and then translating by -0.5 on the right give one map: scale by the extent, shift by minus half the extent |
| Volumes.TextureToModelMaps | src/volume.cpp:21-26 | texture coordinate t goes to (t - 0.5)*dims*resolution; t = 0 goes to the box minimum and t = 1 to the box maximum |
| Volumes.ModelToTextureMaps | src/volume.cpp:178-182 | with the identity model matrix, the camera's texture-space position is p/(dims*resolution) + 0.5, which the texture-to-model map takes back to p |
| Volumes.CornerMaps | src/volume.cpp:213-226 | each unit texture coordinate goes to the corner of the box it stands for |
| Volumes.BoxVertices | src/volume.cpp:213-226 | the vertex table has eight vertices; vertex k carries texture coordinate k and sits at the box corner that coordinate names |
| Volumes.BoxVerticesMatchTexcoords | src/volume.cpp:216-226 | in the vertex table, each position component is the box maximum where the texcoord is 1 and the minimum where it is 0, and each position is the image of its texcoord |
| Volumes.BoxTexcoordsAreTheCorners | src/volume.cpp:216-226 | the table lists every corner of the unit cube exactly once |
| Volumes.BoxIndicesInRange | src/volume.cpp:227-230 | the strip has 14 indices, each naming one of the 8 vertices |
| Volumes.StripTrianglesLieOnFaces | src/volume.cpp:227-230 | each of the strip's 12 triangles joins three distinct corners that lie on one face of the box |
| Volumes.StripCoversEveryFace | src/volume.cpp:227-230 | each of the six faces of the box is covered by exactly two triangles of the strip |
| Volumes.Fill | src/volume.cpp:201-204 | clearing a field sets every one of its entries to the clear value |
| Volumes.Volume.constructor | src/volume.cpp:7-122 | a new volume stores its parameters, has the default step size, margin and display mode, the identity model matrix, the texture-to-model matrix, three fields of one grid's size, and every field cleared |
| Volumes.Volume.Reset | src/volume.cpp:198-205 | after reset, every distance is 0, every color is opaque white (255,255,255,255) and every weight is 0 |
| Volumes.ClearedVoxel | src/volume.cpp:199-205 | after reset, each voxel reads (0, white, 0) in the three fields at once |
| Volumes.Volume.GetStepSize | src/volume.hpp:25 | the getter returns the stored step size |
| Volumes.Volume.GetTruncMargin | src/volume.hpp:28 | the getter returns the stored margin |
| Volumes.Volume.GetDisplayMode | src/volume.hpp:31 | the getter returns the stored display mode |
| Volumes.Volume.SetStepSize | src/volume.hpp:24-25 | the getter returns the step size just set; the margin and display mode are unchanged |
| Volumes.Volume.SetTruncMargin | src/volume.hpp:27-28 | the getter returns the margin just set; the step size and display mode are unchanged |
| Volumes.Volume.SetDisplayMode | src/volume.hpp:30-31 | the getter returns the mode just set, for any int; the step size and margin are unchanged |
| Volumes.Volume.Integrate | src/volume.cpp:137-160 | the fusion dispatch asks for dims.x/32 and dims.y/32 work groups, rounded down, and dims.z in z, with the identity model matrix, the given intrinsics, and the margin resolution*2.0 fixed at construction; it may write the three fields |
| Volumes.Volume.Draw | src/volume.cpp:178-188 | the draw passes the camera position in texture space, p/(dims*resolution) + 0.5, and the step size and display mode as they are at that call, with the 14-index strip |
| Application.App.DisplayedFrame | src/app.cpp:302-303 | the application shows the playback's displayed frame, between 1 and the frame count |
| Application.App.constructor | src/app.cpp:31-38 | the application starts paused at frame 0 of 1000, with fx = fy = 585, the principal point at (320, 240), no skew, the tie on, and a cleared volume; the camera at (0, 0, 2) with yaw -90, pitch 0, speed 3, sensitivity 0.07 and field of view 70 (src/camera.hpp:7-9); the volume with step size 0.001, truncation margin 2.0 and display mode 0 (src/volume.hpp:58-62) |
| Application.App.LoadDataFrame | src/app.cpp:315-391 | the load succeeds exactly when the frame's files pass every check, raises the index only for a color image with the wrong channel count, and opens exactly the files the checks reach |
| Application.App.Fuse | src/app.cpp:87-111 | the playback state after the fusion half of an iteration is `Playback.Iterate` of the one before; a dispatch happens exactly when a load is attempted and succeeds, and it uses the intrinsic matrix of the current parameters; only the frame index may change, and the three fields only when there is a dispatch |
| Application.App.Step | src/app.cpp:87-113 | one main-loop iteration: the playback state follows `Playback.Iterate`, a dispatch happens exactly when a load is attempted and succeeds, the three fields stay as they were without one, and the draw sees the camera in texture space |
| Application.App.Play | src/app.cpp:290-291 | Play sets paused to false and changes nothing else of the playback state |
| Application.App.Stop | src/app.cpp:295-296 | Stop sets paused to true and changes nothing else of the playback state |
| Application.App.ReturnToFirstFrame | src/app.cpp:308-309 | Return to first frame sets the index to 0 and changes nothing else of the playback state |
| Application.App.ResetVolume | src/app.cpp:310-311 | Reset volume clears all three fields and leaves the playback state as it was |
| Application.App.EditIntrinsics | src/app.cpp:266-277 | one pass of the intrinsics panel: the focal lengths follow `EditFocalLengths` under the tie, and cx, cy and s take their sliders' values |
| Application.LoadDependsOnlyOnFrameFiles | src/app.cpp:321-377 | the outcome of loading frame n depends only on what the readers report for that frame's three files |

## Findings

| source | as written | input that shows it | evidently intended | confidence | as-written member | corrected member |
|---|---|---|---|---|---|---|
| src/app.cpp:331-381 | every failed check except the color channel count returns false without advancing, so the main loop attempts the same frame again; each of these failures prints "Skipping frame..." | frame count fixed at 1000 (src/app.hpp:30) and a dataset of n < 1000 frames, so frame n has no depth file: playback stays at frame n for ever | a failed frame is skipped: every attempted load moves to the next frame, and playback reaches the end whatever the loads report | medium, not executed | Playback.ShortDatasetStalls | Playback.SkippingReachesEnd |

`Playback.ShortDatasetStalls` uses the written transition `Playback.Iterate` with `Playback.RetriesStall`. `Playback.IterateSkipping` is the skipping transition, and `Playback.SkippingReachesEnd` is proved about it. `Application.App` keeps the written transition because it models the code as it stands.

## Left out

- The fusion and ray-march kernels are GLSL shaders, and those sources are not part of this model. The model does not capture the weighted-average distance update, the weight cap or the zero-crossing search. `Integrate` and `Draw` stop at the configuration they hand over.
- The memory barrier after the fusion dispatch is GPU synchronisation between kernels. No sequential model captures it.
- Shader compilation (src/shader.cpp) is left out; it is file reading and foreign calls.
- Texture formats and parameters, the frame textures, the upload of the frame's pixels, and vertex arrays and buffers are left out. Only the array-level effect of reset and the grid the three fields share are modelled. The distance texture's half-float storage is not modelled.
- Image decoding and reading the pose file are library calls. Their outcome is the `Disk` parameter. Parsing the 16 pose floats, transposing them and inverting the pose into the extrinsic matrix are float matrix numerics, so the extrinsic is not modelled.
- The view and projection matrices (`getViewMatrix`, `getProjectionMatrix`), the mvp product and the trigonometry of `updateVectors` are library numerics. The basis is the uninterpreted `Orientation`. `Volumes.Volume.Draw` takes the camera position where the source computes the inverse view matrix applied to the origin, since for a look-at matrix that product is the camera position.
- Volumes.Volume.Draw: does not state the mvp matrix it sets, because it is built from the uninterpreted view and projection matrices.
- `processCmdArgs` exits the process when no dataset directory is given; the model's constructor takes the directory. `run`, `initGLFW`, `initGUI`, `cleanup` and `main` are window and library set-up.
- Application.App.constructor: the source creates the volume at the start of `mainLoop`; the model creates it in the constructor, before the first iteration, which is the same point for every property here.
- `processInput` is left out. It maps keys to `Move` and mouse motion to `Look`, as windowing plumbing. Its first-use guard tests `initialized` rather than `!initialized`, so the very first mouse offset is measured from (0, 0). That is not modelled either.
- The frame timer (`_delta_time`) is left out; `Move` takes dt as a parameter.
- The remaining widgets of the options window are left out: move speed, sensitivity, field of view, background color, the step-size slider and the display-mode radio buttons. They only assign fields, through the modelled setters or directly.
- Volumes.BoxVertices: recomputes the table for each volume. In the source the table is a function-local `static`, initialised from the first volume's size only. The application makes exactly one volume, so the two agree there.
- The volume's `offset` and frame size are stored but never used by the modelled code.
- Cameras.Camera.Move and Cameras.Camera.Look: reals stand in for floats, so rounding is not modelled. The same holds for every real-valued member.
- Volumes.Volume.Integrate: the three fields the fusion kernel writes may change, and their contents afterwards are not constrained, because the kernel is not modelled. An iteration without a dispatch keeps them unchanged (`Application.App.Fuse`).
- Every failed check prints a diagnostic to stderr (src/app.cpp:332-379). Output is not modelled.
- Image buffers are freed only on the success path (src/app.cpp:106-107). A load that reads an image and then fails a later check never frees that buffer, so a stalled playback leaks a buffer on every iteration. Memory ownership is not modelled.
