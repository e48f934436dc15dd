// The rules of the player sheet in
// src/ui/components/advanced/AudioBottomSheet.tsx: the progress percentage,
// the clamped seek value, which line of the script is highlighted, the
// automatic top-up of a short play queue, and the gesture thresholds that
// open or close the trackbar.
module AudioSheet {
  import opened JsText
  import AudioQueue
  import Workflow

  /** The playback position as a percentage of the duration; 0 while the
      duration is unknown. */
  function Progress(currentTime: real, duration: real): (p: real)
    ensures duration <= 0.0 ==> p == 0.0
    ensures duration > 0.0 ==> p * duration == currentTime * 100.0
  {
    if duration > 0.0 then currentTime / duration * 100.0 else 0.0
  }

  /** A position inside the track is a percentage in [0, 100]; the end of the
      track is exactly 100. */
  lemma ProgressBounds(currentTime: real, duration: real)
    requires duration > 0.0 && 0.0 <= currentTime <= duration
    ensures 0.0 <= Progress(currentTime, duration) <= 100.0
    ensures currentTime == duration ==> Progress(currentTime, duration) == 100.0
  {
  }

  /** `Math.max(0, Math.min(100, x))`. */
  function Clamp(x: real): (r: real)
    ensures 0.0 <= r <= 100.0
    ensures 0.0 <= x <= 100.0 ==> r == x
    ensures x < 0.0 ==> r == 0.0
    ensures x > 100.0 ==> r == 100.0
  {
    if x < 0.0 then 0.0 else if x > 100.0 then 100.0 else x
  }

  /** The percentage a click on the progress bar stands for: the click's
      offset from the bar's left edge over the bar's width, clamped. */
  function SeekValue(clickX: real, width: real): (r: real)
    requires width > 0.0
    ensures 0.0 <= r <= 100.0
    ensures 0.0 <= clickX <= width ==> r * width == clickX * 100.0
    ensures clickX <= 0.0 ==> r == 0.0
    ensures clickX >= width ==> r == 100.0
  {
    Clamp(clickX / width * 100.0)
  }

  /** A line of the script and the time, in seconds, at which it starts. */
  datatype Context = Context(id: int, message: string, timeline: real)

  /** Line `i` is highlighted when playback has reached it and, unless it is
      the last line, has not yet reached the next one. */
  predicate IsActive(contexts: seq<Context>, i: int, currentTime: real)
    requires 0 <= i < |contexts|
  {
    currentTime >= contexts[i].timeline &&
    (i == |contexts| - 1 || currentTime < contexts[i + 1].timeline)
  }

  predicate SortedTimeline(contexts: seq<Context>)
  {
    forall a, b :: 0 <= a <= b < |contexts| ==> contexts[a].timeline <= contexts[b].timeline
  }

  /** With start times in order, at most one line is highlighted at a time. */
  lemma AtMostOneActive(contexts: seq<Context>, i: int, j: int, currentTime: real)
    requires SortedTimeline(contexts)
    requires 0 <= i < |contexts| && 0 <= j < |contexts|
    requires IsActive(contexts, i, currentTime) && IsActive(contexts, j, currentTime)
    ensures i == j
  {
  }

  /** Once playback has reached the first line, some line is highlighted
      (whatever the order of the start times). */
  lemma {:induction false} SomeActive(contexts: seq<Context>, currentTime: real)
    requires |contexts| > 0 && currentTime >= contexts[0].timeline
    ensures exists i :: 0 <= i < |contexts| && IsActive(contexts, i, currentTime)
  {
    var n := |contexts|;
    if currentTime >= contexts[n - 1].timeline {
      assert IsActive(contexts, n - 1, currentTime);
    } else {
      var prefix := contexts[..n - 1];
      SomeActive(prefix, currentTime);
      var i :| 0 <= i < |prefix| && IsActive(prefix, i, currentTime);
      assert prefix[i] == contexts[i];
      if i < |prefix| - 1 {
        assert prefix[i + 1] == contexts[i + 1];
      }
      assert IsActive(contexts, i, currentTime);
    }
  }

  /** Before the first line starts, no line is highlighted. */
  lemma NoneActiveBeforeStart(contexts: seq<Context>, i: int, currentTime: real)
    requires SortedTimeline(contexts)
    requires 0 <= i < |contexts| && currentTime < contexts[0].timeline
    ensures !IsActive(contexts, i, currentTime)
  {
    assert contexts[0].timeline <= contexts[i].timeline;
  }

  /** At most three of the popular snaps, in the order given. */
  function Pick(popular: seq<int>): (r: seq<int>)
    ensures |r| <= 3 && |r| <= |popular| && r == popular[..|r|]
    ensures |r| == if |popular| < 3 then |popular| else 3
  {
    if |popular| < 3 then popular else popular[..3]
  }

  /** The ids of `snaps` that are not in `queue`, in order. */
  function NotQueued(snaps: seq<int>, queue: seq<int>): (r: seq<int>)
    ensures |r| <= |snaps|
    ensures forall x :: x in r <==> x in snaps && x !in queue
  {
    if snaps == [] then []
    else if snaps[0] in queue then NotQueued(snaps[1..], queue)
    else [snaps[0]] + NotQueued(snaps[1..], queue)
  }

  /** The ids an `autoAddToQueue` that fetched `popular` appends: at most
      three, each among the first three popular snaps and none already
      queued, and every one of those not yet queued. */
  function TopUp(popular: seq<int>, queue: seq<int>): (r: seq<int>)
    ensures |r| <= 3
    ensures forall x :: x in r <==> x in popular[..if |popular| < 3 then |popular| else 3] && x !in queue
  {
    NotQueued(Pick(popular), queue)
  }

  /** The gesture rule for the end of a drag: a long or a fast drag toggles
      the trackbar. */
  predicate ShouldToggle(velocity: real, deltaY: real)
  {
    (if deltaY < 0.0 then -deltaY else deltaY) > 50.0 ||
    (if velocity < 0.0 then -velocity else velocity) > 0.5
  }

  /** `handleControllBarDragEnd`: only the trackbar flag may change, and it
      flips exactly when the drag was long or fast. */
  function OnDragEnd(s: Workflow.WorkflowState, velocity: real, deltaY: real): (r: Workflow.WorkflowState)
    ensures r.(isAudioTrackbarOpen := s.isAudioTrackbarOpen) == s
    ensures r.isAudioTrackbarOpen != s.isAudioTrackbarOpen <==>
      deltaY > 50.0 || deltaY < -50.0 || velocity > 0.5 || velocity < -0.5
  {
    if ShouldToggle(velocity, deltaY) then Workflow.ToggleAudioTrackbar(s) else s
  }

  /** `handleControllBarTap`: a tap always flips the trackbar. */
  function OnTap(s: Workflow.WorkflowState): (r: Workflow.WorkflowState)
    ensures r.(isAudioTrackbarOpen := s.isAudioTrackbarOpen) == s
    ensures r.isAudioTrackbarOpen == !s.isAudioTrackbarOpen
  {
    Workflow.ToggleAudioTrackbar(s)
  }

  /** The sheet's own state: whether a top-up request is in flight. */
  class AudioSheet {
    var isLoadingQueue: bool

    constructor ()
      ensures !isLoadingQueue
    {
      isLoadingQueue := false;
    }

    /** `autoAddToQueue`. It does nothing when autoplay is off, a top-up is
        already running or the queue holds more than two ids. Otherwise it
        fetches the popular snaps (`popular`, already shuffled; None when the
        request failed) and appends `TopUp` of them to the player's queue. */
    method AutoAddToQueue(player: AudioQueue.AudioPlayer, popular: Option<seq<int>>)
      requires player.Valid()
      modifies this, player`queue
      ensures player.Valid()
      ensures !old(player.autoPlayEnabled) || old(isLoadingQueue) || |old(player.queue)| > 2 ==>
        player.queue == old(player.queue) && isLoadingQueue == old(isLoadingQueue)
      ensures old(player.autoPlayEnabled) && !old(isLoadingQueue) && |old(player.queue)| <= 2 ==>
        !isLoadingQueue &&
        player.queue == old(player.queue) + (if popular.Some? then TopUp(popular.value, old(player.queue)) else [])
    {
      if !player.autoPlayEnabled || isLoadingQueue || |player.queue| > 2 {
        return;
      }
      isLoadingQueue := true;
      if popular.Some? {
        var randomSnaps := NotQueued(Pick(popular.value), player.queue);
        ghost var start := player.queue;
        for k := 0 to |randomSnaps|
          invariant player.Valid()
          invariant player.queue == start + randomSnaps[..k]
        {
          player.AddToQueue(randomSnaps[k]);
          assert randomSnaps[..k + 1] == randomSnaps[..k] + [randomSnaps[k]];
        }
        assert randomSnaps[..|randomSnaps|] == randomSnaps;
      }
      isLoadingQueue := false;
    }

    /** The effect that watches the queue: a top-up is attempted when autoplay
        is on and at most one id is queued. */
    method WatchQueue(player: AudioQueue.AudioPlayer, popular: Option<seq<int>>)
      requires player.Valid()
      modifies this, player`queue
      ensures player.Valid()
      ensures !(old(player.autoPlayEnabled) && !old(isLoadingQueue) && |old(player.queue)| <= 1) ==>
        player.queue == old(player.queue) && isLoadingQueue == old(isLoadingQueue)
      ensures old(player.autoPlayEnabled) && !old(isLoadingQueue) && |old(player.queue)| <= 1 ==>
        !isLoadingQueue &&
        player.queue == old(player.queue) + (if popular.Some? then TopUp(popular.value, old(player.queue)) else [])
    {
      if |player.queue| <= 1 && player.autoPlayEnabled {
        AutoAddToQueue(player, popular);
      }
    }
  }
}
