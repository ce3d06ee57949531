/** The playback state of the application (src/app.cpp, src/app.hpp): whether
    integration is paused, the index of the next frame to load and the frame
    count, a constant 1000 that is not read from the dataset, and how one
    main-loop iteration and the on-screen controls change it.

    The outcome of a load is the LoadStatus the validation chain computes;
    which frame index it is attempted for is part of the state. */
module Playback {
  import opened FrameLoading

  /** Defaults of the application's fields. */
  const DefaultTotalFrames: int := 1000

  datatype PlaybackState = PlaybackState(paused: bool, current: int, total: int)

  const Initial: PlaybackState := PlaybackState(true, 0, DefaultTotalFrames)

  /** The frame index stays between 0 and the frame count. */
  predicate InBounds(p: PlaybackState) { 0 <= p.current <= p.total }

  /** Whether a main-loop iteration tries to load a frame at all. */
  predicate Attempts(p: PlaybackState) { !p.paused && p.current < p.total }

  /** The load outcomes after which loadDataFrame or the main loop moves to
      the next frame: a successful load, and the color image with the wrong
      channel count. */
  predicate Advances(status: LoadStatus) { status == Loaded || status == Skipped(ColorChannels) }

  /** The effect of one main-loop iteration, given what the load of the
      current frame would report. */
  function Iterate(p: PlaybackState, status: LoadStatus): (q: PlaybackState)
    ensures q.paused == p.paused && q.total == p.total
    ensures InBounds(p) ==> InBounds(q)
    ensures p.current <= q.current <= p.current + 1
    ensures q.current != p.current <==> Attempts(p) && Advances(status)
  {
    if !p.paused && p.current < p.total then
      if status == Loaded then p.(current := p.current + 1)
      else if status == Skipped(ColorChannels) then p.(current := p.current + 1)
      else p
    else p
  }

  /** The controls that change the playback state. */
  datatype Command = Play | Stop | ReturnToFirstFrame | ResetVolume

  function Apply(p: PlaybackState, c: Command): (q: PlaybackState)
    ensures q.total == p.total
    ensures InBounds(p) ==> InBounds(q)
  {
    match c
    case Play => p.(paused := false)
    case Stop => p.(paused := true)
    case ReturnToFirstFrame => p.(current := 0)
    case ResetVolume => p
  }

  /** The frame number the controls window shows, counted from one. */
  function DisplayedFrame(p: PlaybackState): (shown: int)
    ensures shown <= p.total
    ensures p.current < p.total ==> shown == p.current + 1
    ensures p.current >= p.total ==> shown == p.total
    ensures InBounds(p) && p.total >= 1 ==> 1 <= shown
  {
    if p.current + 1 < p.total then p.current + 1 else p.total
  }

  /** Something that happens between two looks at the state: a control is
      used, or the main loop runs once with the given load outcome. */
  datatype Event = Control(command: Command) | Frame(status: LoadStatus)

  function Step(p: PlaybackState, e: Event): PlaybackState
  {
    match e
    case Control(c) => Apply(p, c)
    case Frame(s) => Iterate(p, s)
  }

  function Run(p: PlaybackState, events: seq<Event>): PlaybackState
    decreases |events|
  {
    if events == [] then p else Run(Step(p, events[0]), events[1..])
  }

  // ---------------------------------------------------------------------------
  // Properties of one iteration

  /** While paused, or once every frame has been tried, an iteration attempts
      no load and leaves the state unchanged, whatever the files hold. */
  lemma IdleIterationChangesNothing(p: PlaybackState, status: LoadStatus)
    requires p.paused || p.current >= p.total
    ensures Iterate(p, status) == p
  {
  }

  /** When a load is attempted, a successful one moves to the next frame. */
  lemma LoadedAdvancesByOne(p: PlaybackState)
    requires Attempts(p)
    ensures Iterate(p, Loaded) == p.(current := p.current + 1)
  {
  }

  /** Every failed check but the color channel count leaves the state as it
      was, so the same frame is tried again on the next iteration. */
  lemma FailureRetriesSameFrame(p: PlaybackState, c: Check)
    requires c != ColorChannels
    ensures Iterate(p, Skipped(c)) == p
  {
  }

  /** A color image with the wrong channel count moves to the next frame
      although nothing was integrated. */
  lemma ColorChannelFailureAdvances(p: PlaybackState)
    requires Attempts(p)
    ensures Iterate(p, Skipped(ColorChannels)) == p.(current := p.current + 1)
  {
  }

  // ---------------------------------------------------------------------------
  // Properties of a run

  /** Starting in bounds (the initial state is), the frame index stays in
      bounds through any sequence of iterations and controls. */
  lemma {:induction false} RunStaysInBounds(p: PlaybackState, events: seq<Event>)
    requires InBounds(p)
    ensures InBounds(Run(p, events))
    ensures Run(p, events).total == p.total
    decreases |events|
  {
    if events != [] {
      RunStaysInBounds(Step(p, events[0]), events[1..]);
    }
  }

  lemma InitialInBounds()
    ensures InBounds(Initial) && Initial.paused && DisplayedFrame(Initial) == 1
  {
  }

  predicate IsRetry(e: Event) { e.Frame? && e.status.Skipped? && e.status.failed != ColorChannels }

  /** Playback stalls on a frame whose depth image, depth format, color image,
      color size or pose file is bad: however often the main loop runs, the
      index does not move past it. */
  lemma {:induction false} RetriesStall(p: PlaybackState, events: seq<Event>)
    requires forall i :: 0 <= i < |events| ==> IsRetry(events[i])
    ensures Run(p, events) == p
    decreases |events|
  {
    if events != [] {
      FailureRetriesSameFrame(p, events[0].status.failed);
      RetriesStall(p, events[1..]);
    }
  }

  function Loads(k: nat): (events: seq<Event>)
    ensures |events| == k && forall i :: 0 <= i < k ==> events[i] == Frame(Loaded)
  {
    if k == 0 then [] else [Frame(Loaded)] + Loads(k - 1)
  }

  /** While playing, k successful loads move the index k frames on, stopping
      at the frame count. From the initial state after Play, a run of
      DefaultTotalFrames successful loads reaches the end of the dataset. */
  lemma {:induction false} PlayingThrough(p: PlaybackState, k: nat)
    requires InBounds(p) && !p.paused
    ensures Run(p, Loads(k)) == p.(current := if p.current + k <= p.total then p.current + k else p.total)
    decreases k
  {
    if k > 0 {
      var events := Loads(k);
      assert events[0] == Frame(Loaded);
      assert events[1..] == Loads(k - 1);
      PlayingThrough(Iterate(p, Loaded), k - 1);
    }
  }

  /** While paused nothing but the controls changes the state: a run of
      iterations of any outcome leaves it unchanged. */
  lemma {:induction false} PausedRunIsIdle(p: PlaybackState, events: seq<Event>)
    requires p.paused
    requires forall i :: 0 <= i < |events| ==> events[i].Frame?
    ensures Run(p, events) == p
    decreases |events|
  {
    if events != [] {
      PausedRunIsIdle(p, events[1..]);
    }
  }

  /** Returning to the first frame while playing restarts the dataset: the
      next attempted load is frame 0. */
  lemma ReturnRestarts(p: PlaybackState)
    requires p.total > 0
    ensures Attempts(Apply(Apply(p, Play), ReturnToFirstFrame))
    ensures Apply(Apply(p, Play), ReturnToFirstFrame).current == 0
  {
  }

  // ---------------------------------------------------------------------------
  // Failed loads: retried as written, skipped as the messages say

  /** k iterations whose load fails the same check. */
  function Failures(k: nat, c: Check): (events: seq<Event>)
    ensures |events| == k && forall i :: 0 <= i < k ==> events[i] == Frame(Skipped(c))
  {
    if k == 0 then [] else [Frame(Skipped(c))] + Failures(k - 1, c)
  }

  /** The frame count is the fixed DefaultTotalFrames, never the dataset's
      own length. For a dataset whose frame n is the first without a depth
      file, playback reaches frame n and stays there: however many
      iterations run, each one attempts frame n again and the end is never
      reached. */
  lemma ShortDatasetStalls(n: int, k: nat)
    requires 0 <= n < DefaultTotalFrames
    ensures Attempts(PlaybackState(false, n, DefaultTotalFrames))
    ensures Run(PlaybackState(false, n, DefaultTotalFrames), Failures(k, DepthReadable))
         == PlaybackState(false, n, DefaultTotalFrames)
  {
    RetriesStall(PlaybackState(false, n, DefaultTotalFrames), Failures(k, DepthReadable));
  }

  /** One iteration as the "Skipping frame..." messages describe it: every
      attempted load moves to the next frame, whatever it reports. Where the
      source's own iteration moves on, the two agree. */
  function IterateSkipping(p: PlaybackState, status: LoadStatus): (q: PlaybackState)
    ensures q.paused == p.paused && q.total == p.total
    ensures InBounds(p) ==> InBounds(q)
    ensures Attempts(p) ==> q.current == p.current + 1
    ensures !Attempts(p) ==> q == p
    ensures Advances(status) ==> q == Iterate(p, status)
  {
    if !p.paused && p.current < p.total then p.(current := p.current + 1) else p
  }

  function RunSkipping(p: PlaybackState, statuses: seq<LoadStatus>): PlaybackState
    decreases |statuses|
  {
    if statuses == [] then p else RunSkipping(IterateSkipping(p, statuses[0]), statuses[1..])
  }

  /** With failed frames skipped, playback from any in-bounds playing state
      reaches the frame count after total - current iterations, whatever
      the loads report. */
  lemma {:induction false} SkippingReachesEnd(p: PlaybackState, statuses: seq<LoadStatus>)
    requires InBounds(p) && !p.paused
    requires |statuses| == p.total - p.current
    ensures RunSkipping(p, statuses) == p.(current := p.total)
    decreases |statuses|
  {
    if statuses != [] {
      SkippingReachesEnd(IterateSkipping(p, statuses[0]), statuses[1..]);
    }
  }
}
